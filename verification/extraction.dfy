/**
  Recovering an alert's identity from the Slack text it was rendered into
  (extractAlertInfo, internal/server/server.go).

  The Go code uses regular expressions of two shapes, `M([^*\n]+)` and
  `M([^\n]+)`, with a literal prefix M, and keeps the first submatch of the
  leftmost match. `Capture` models exactly that: the leftmost position where
  M occurs followed by at least one allowed character, and from there the
  longest run of allowed characters (the quantifier is greedy).
 */
module Extraction {

  import opened Optional
  import opened Strings

  datatype AlertInfo = AlertInfo(name: string, description: string)

  const GrafanaName := "Grafana Alert: "
  const GrafanaDescription := "\U{2022} *Description:* "
  const CloudWatchName := "CloudWatch Alarm: "
  const CloudWatchReason := "\U{2022} *Reason:* "

  /** `[^*\n]`: a name stops at an asterisk or a line break. */
  const NameStops: set<char> := {'*', '\n'}
  /** `[^\n]`: a description runs to the end of its line. */
  const LineStops: set<char> := {'\n'}

  /** `marker` followed by one allowed character starts at `i`: the regexp matches there. */
  predicate MatchesAt(text: string, marker: string, stops: set<char>, i: int) {
    0 <= i && i + |marker| < |text| && text[i..i + |marker|] == marker && text[i + |marker|] !in stops
  }

  /** The longest prefix of `s` without a stop character. */
  function Run(s: string, stops: set<char>): (r: string)
    ensures IsPrefix(r, s)
    ensures forall k :: 0 <= k < |r| ==> r[k] !in stops
    ensures |r| == |s| || s[|r|] in stops
    decreases |s|
  {
    if |s| == 0 || s[0] in stops then "" else [s[0]] + Run(s[1..], stops)
  }

  /** The captured group of the leftmost match at or after position `i`. */
  function FindCapture(text: string, marker: string, stops: set<char>, i: nat): (r: Option<string>)
    requires i <= |text|
    ensures r.Some? ==> |r.value| > 0 && forall k :: 0 <= k < |r.value| ==> r.value[k] !in stops
    ensures r.None? <==> forall j :: i <= j < |text| ==> !MatchesAt(text, marker, stops, j)
    decreases |text| - i
  {
    if i + |marker| >= |text| then None
    else if MatchesAt(text, marker, stops, i) then Some(Run(text[i + |marker|..], stops))
    else FindCapture(text, marker, stops, i + 1)
  }

  /** regexp.MustCompile(marker + "([^...]+)").FindStringSubmatch(text)[1], if any. */
  function Capture(text: string, marker: string, stops: set<char>): Option<string> {
    FindCapture(text, marker, stops, 0)
  }

  /** Text carrying the Grafana marker is read with the Grafana markers. */
  lemma GrafanaTextInfo(text: string)
    requires Contains(text, "Grafana Alert:")
    ensures ExtractAlertInfo(text)
         == AlertInfo(Trimmed(Capture(text, GrafanaName, NameStops)),
                      Trimmed(Capture(text, GrafanaDescription, LineStops)))
  {
  }

  /** Text with the CloudWatch marker and without the Grafana one is read with the CloudWatch markers. */
  lemma CloudWatchTextInfo(text: string)
    requires !Contains(text, "Grafana Alert:") && Contains(text, "CloudWatch Alarm:")
    ensures ExtractAlertInfo(text)
         == AlertInfo(Trimmed(Capture(text, CloudWatchName, NameStops)),
                      Trimmed(Capture(text, CloudWatchReason, LineStops)))
  {
  }

  /** The description and reason markers stay on one line. */
  lemma MarkersOnOneLine()
    ensures '\n' !in GrafanaDescription && '\n' !in CloudWatchReason
  {
  }

  /** A text without `*` or a line break holds no name stop. */
  lemma NoNameStops(t: string)
    requires '*' !in t && '\n' !in t
    ensures forall k :: 0 <= k < |t| ==> t[k] !in NameStops
  {
  }

  /** A text without a line break holds no line stop. */
  lemma NoLineStops(t: string)
    requires '\n' !in t
    ensures forall k :: 0 <= k < |t| ==> t[k] !in LineStops
  {
  }

  /** strings.TrimSpace of the submatch, or "" when the regexp did not match. */
  function Trimmed(m: Option<string>): string {
    match m
    case Some(s) => TrimSpace(s)
    case None => ""
  }

  /**
    extractAlertInfo: Grafana text is recognised first, CloudWatch text
    second, anything else yields an empty name and description.
   */
  function ExtractAlertInfo(text: string): (r: AlertInfo)
    ensures !Contains(text, "Grafana Alert:") && !Contains(text, "CloudWatch Alarm:") ==> r == AlertInfo("", "")
    ensures '*' !in r.name && '\n' !in r.name && '\n' !in r.description
    ensures r.name == TrimSpace(r.name)
  {
    var info :=
      if Contains(text, "Grafana Alert:") then
        AlertInfo(Trimmed(Capture(text, GrafanaName, NameStops)),
                  Trimmed(Capture(text, GrafanaDescription, LineStops)))
      else if Contains(text, "CloudWatch Alarm:") then
        AlertInfo(Trimmed(Capture(text, CloudWatchName, NameStops)),
                  Trimmed(Capture(text, CloudWatchReason, LineStops)))
      else AlertInfo("", "");
    var gn := Capture(text, GrafanaName, NameStops);
    var cn := Capture(text, CloudWatchName, NameStops);
    TrimmedAvoids(gn, '*');
    TrimmedAvoids(gn, '\n');
    TrimmedAvoids(cn, '*');
    TrimmedAvoids(cn, '\n');
    TrimmedAvoids(Capture(text, GrafanaDescription, LineStops), '\n');
    TrimmedAvoids(Capture(text, CloudWatchReason, LineStops), '\n');
    TrimmedIsTrimmed(gn);
    TrimmedIsTrimmed(cn);
    info
  }

  lemma TrimmedAvoids(m: Option<string>, c: char)
    requires m.Some? ==> forall k :: 0 <= k < |m.value| ==> m.value[k] != c
    ensures c !in Trimmed(m)
  {
    if m.Some? {
      TrimSpaceSubset(m.value, c);
    }
  }

  lemma TrimmedIsTrimmed(m: Option<string>)
    ensures TrimSpace(Trimmed(m)) == Trimmed(m)
  {
    if m.Some? {
      TrimSpaceIdempotent(m.value);
    } else {
      assert TrimSpace("") == "";
    }
  }

  // ---------------------------------------------------------------------------
  // When the regexp finds what was rendered

  /**
    If the text is `pre + marker + cap + post`, nothing matches inside `pre`,
    `cap` is a non-empty run of allowed characters and `post` does not go on
    with one, then the regexp captures exactly `cap`.
   */
  lemma CaptureAfter(pre: string, marker: string, cap: string, post: string, stops: set<char>)
    requires forall j :: 0 <= j < |pre| ==> !MatchesAt(pre + marker + cap + post, marker, stops, j)
    requires |cap| > 0 && forall k :: 0 <= k < |cap| ==> cap[k] !in stops
    requires |post| == 0 || post[0] in stops
    ensures Capture(pre + marker + cap + post, marker, stops) == Some(cap)
  {
    var text := pre + marker + cap + post;
    assert text[|pre|..|pre| + |marker|] == marker;
    assert text[|pre| + |marker|] == cap[0];
    assert MatchesAt(text, marker, stops, |pre|);
    assert text[|pre| + |marker|..] == cap + post;
    RunStops(cap, post, stops);
    CaptureFrom(text, marker, stops, |pre|, 0);
  }

  lemma {:induction false} CaptureFrom(text: string, marker: string, stops: set<char>, p: nat, i: nat)
    requires i <= p < |text|
    requires MatchesAt(text, marker, stops, p)
    requires forall j :: i <= j < p ==> !MatchesAt(text, marker, stops, j)
    ensures FindCapture(text, marker, stops, i) == Some(Run(text[p + |marker|..], stops))
    decreases p - i
  {
    if i < p {
      CaptureFrom(text, marker, stops, p, i + 1);
    }
  }

  lemma {:induction false} RunStops(cap: string, post: string, stops: set<char>)
    requires forall k :: 0 <= k < |cap| ==> cap[k] !in stops
    requires |post| == 0 || post[0] in stops
    ensures Run(cap + post, stops) == cap
    decreases |cap|
  {
    if |cap| == 0 {
      assert cap + post == post;
    } else {
      assert (cap + post)[1..] == cap[1..] + post;
      RunStops(cap[1..], post, stops);
      assert [cap[0]] + cap[1..] == cap;
    }
  }

  /** No match can start inside a prefix that lacks the marker's first character. */
  lemma NoMatchWithoutLeadChar(pre: string, marker: string, rest: string, stops: set<char>)
    requires |marker| > 0 && marker[0] !in pre
    ensures forall j :: 0 <= j < |pre| ==> !MatchesAt(pre + rest, marker, stops, j)
  {
    forall j | 0 <= j < |pre|
      ensures !MatchesAt(pre + rest, marker, stops, j)
    {
      if j + |marker| < |pre + rest| {
        assert (pre + rest)[j..j + |marker|][0] == pre[j];
      }
    }
  }

  /**
    No match can start inside a prefix that does not contain the marker and
    whose last character does not occur in the marker (so no occurrence can
    straddle the boundary).
   */
  lemma NoMatchInClosedPrefix(pre: string, marker: string, rest: string, stops: set<char>)
    requires |pre| > 0 && pre[|pre| - 1] !in marker
    requires !Contains(pre, marker)
    ensures forall j :: 0 <= j < |pre| ==> !MatchesAt(pre + rest, marker, stops, j)
  {
    ContainsIff(pre, marker);
    var text := pre + rest;
    forall j | 0 <= j < |pre|
      ensures !MatchesAt(text, marker, stops, j)
    {
      if j + |marker| <= |pre| {
        assert text[j..j + |marker|] == pre[j..j + |marker|];
        assert !OccursAt(pre, marker, j);
      } else if j + |marker| < |text| {
        var k := |pre| - 1 - j;
        assert text[j..j + |marker|][k] == pre[|pre| - 1];
      }
    }
  }

  /**
    The capture right after a marker whose first character does not occur in
    the text before it.
   */
  lemma CaptureAfterFreshStart(pre: string, marker: string, cap: string, post: string, stops: set<char>)
    requires |marker| > 0 && marker[0] !in pre
    requires |cap| > 0 && forall k :: 0 <= k < |cap| ==> cap[k] !in stops
    requires |post| == 0 || post[0] in stops
    ensures Capture(pre + marker + cap + post, marker, stops) == Some(cap)
  {
    Assoc(pre, marker, cap + post);
    Assoc(pre + marker, cap, post);
    NoMatchWithoutLeadChar(pre, marker, marker + (cap + post), stops);
    CaptureAfter(pre, marker, cap, post, stops);
  }

  /**
    The capture right after a marker when the text before it does not contain
    the marker and ends in a character the marker does not use.
   */
  lemma CaptureAfterClosedPrefix(pre: string, marker: string, cap: string, post: string, stops: set<char>)
    requires |pre| > 0 && pre[|pre| - 1] !in marker
    requires !Contains(pre, marker)
    requires |cap| > 0 && forall k :: 0 <= k < |cap| ==> cap[k] !in stops
    requires |post| == 0 || post[0] in stops
    ensures Capture(pre + marker + cap + post, marker, stops) == Some(cap)
  {
    Assoc(pre, marker, cap + post);
    Assoc(pre + marker, cap, post);
    NoMatchInClosedPrefix(pre, marker, marker + (cap + post), stops);
    CaptureAfter(pre, marker, cap, post, stops);
  }
}

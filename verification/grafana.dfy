/**
  The legacy Grafana webhook: priority from the `channel` tag or from
  keywords, routing by rule name, and the Slack text
  (internal/adapter/message_adapter.go).

  The headline shape is shared with the Alertmanager-style webhook.
 */
module Grafana {

  import opened Optional
  import opened Strings
  import opened Library
  import opened Routing
  import opened Json

  datatype EvalMatch = EvalMatch(value: real, metric: string, tags: seq<Pair>)

  /** The decoded legacy webhook. A field missing from the JSON decodes to its zero value. */
  datatype GrafanaWebhook = GrafanaWebhook(
    dashboardId: int,
    evalMatches: seq<EvalMatch>,
    imageUrl: string,
    message: string,
    orgId: int,
    panelId: int,
    ruleId: int,
    ruleName: string,
    ruleUrl: string,
    state: string,
    tags: seq<Pair>,
    title: string
  )

  // ---------------------------------------------------------------------------
  // Priority

  /** The priority a `channel` tag names, if there is such a tag and it names one. */
  function ChannelTagPriority(tags: seq<Pair>): Option<Priority> {
    match Lookup(tags, "channel")
    case Some(tag) => ParseTier(tag)
    case None => None
  }

  /** The lower-cased rule name or the lower-cased title contains the keyword. */
  predicate Mentions(alert: GrafanaWebhook, keyword: string) {
    Contains(ToLower(alert.ruleName), keyword) || Contains(ToLower(alert.title), keyword)
  }

  predicate MentionsCritical(alert: GrafanaWebhook) {
    Mentions(alert, "critical") || Mentions(alert, "prod") || Mentions(alert, "down")
  }

  predicate MentionsHigh(alert: GrafanaWebhook) {
    Mentions(alert, "high") || Mentions(alert, "error")
  }

  /**
    determineGrafanaPriority: a `channel` tag naming a priority decides;
    otherwise the keyword chain, with "warning", "staging" and everything
    else ending at P2.
   */
  function DetermineGrafanaPriority(alert: GrafanaWebhook): (p: Priority)
    ensures ChannelTagPriority(alert.tags).Some? ==> p == ChannelTagPriority(alert.tags).value
    ensures ChannelTagPriority(alert.tags).None? ==> (p == P0 <==> MentionsCritical(alert))
    ensures ChannelTagPriority(alert.tags).None? ==> (p == P1 <==> !MentionsCritical(alert) && MentionsHigh(alert))
  {
    var tag := Lookup(alert.tags, "channel");
    if tag.Some? && ToUpper(tag.value) == "P0" then P0
    else if tag.Some? && ToUpper(tag.value) == "P1" then P1
    else if tag.Some? && ToUpper(tag.value) == "P2" then P2
    else
      var ruleName := ToLower(alert.ruleName);
      var title := ToLower(alert.title);
      if Contains(ruleName, "critical") || Contains(title, "critical") then P0
      else if Contains(ruleName, "prod") || Contains(title, "prod") then P0
      else if Contains(ruleName, "down") || Contains(title, "down") then P0
      else if Contains(ruleName, "high") || Contains(title, "high") then P1
      else if Contains(ruleName, "error") || Contains(title, "error") then P1
      else if Contains(ruleName, "warning") || Contains(title, "warning") then P2
      else if Contains(ruleName, "staging") || Contains(title, "staging") then P2
      else P2
  }

  /** A `channel` tag naming a priority, in any case, wins over every keyword. */
  lemma ChannelTagWins(alert: GrafanaWebhook, tag: string, q: Priority)
    requires Lookup(alert.tags, "channel") == Some(tag)
    requires ToUpper(tag) == Name(q)
    ensures DetermineGrafanaPriority(alert) == q
  {
    assert ParseTier(tag) == Some(q);
  }

  /**
    A `channel` tag that names no priority is ignored: the result is what
    the keywords give with no tags at all.
   */
  lemma UnknownTagFallsThrough(alert: GrafanaWebhook)
    requires Lookup(alert.tags, "channel").Some?
    requires ParseTier(Lookup(alert.tags, "channel").value).None?
    ensures DetermineGrafanaPriority(alert) == DetermineGrafanaPriority(alert.(tags := []))
  {
  }

  // ---------------------------------------------------------------------------
  // Routing

  /**
    The legacy branch of AdaptGrafanaWebhook: the same three-step routing as
    for CloudWatch, keyed by the rule name.
   */
  function AdaptLegacy(alert: GrafanaWebhook, fmt: Formatting, channels: map<string, string>,
                       alarmChannels: map<string, string>): (r: AlertMessage)
    ensures r.priority == DetermineGrafanaPriority(alert)
    ensures r.channel == Route(alert.ruleName, r.priority, channels, alarmChannels)
    ensures r.message == FormatGrafanaSlackMessage(alert, fmt)
  {
    var explicit := Routing.Entry(alarmChannels, alert.ruleName);
    var channel :=
      if explicit != "" then explicit
      else
        var byPriority := Routing.Entry(channels, Name(DetermineGrafanaPriority(alert)));
        if byPriority != "" then byPriority else Routing.Entry(channels, "default");
    AlertMessage(FormatGrafanaSlackMessage(alert, fmt), DetermineGrafanaPriority(alert), channel)
  }

  // ---------------------------------------------------------------------------
  // Filters

  /** Labels shown in the text: not the routing tag, and not empty. */
  predicate IsShownLabel(p: Pair) {
    p.key != "channel" && p.val != ""
  }

  function ShownLabels(tags: seq<Pair>): (r: seq<Pair>)
    ensures forall p :: p in r <==> p in tags && IsShownLabel(p)
    ensures |r| <= |tags|
    decreases |tags|
  {
    if |tags| == 0 then []
    else (if IsShownLabel(tags[0]) then [tags[0]] else []) + ShownLabels(tags[1..])
  }

  /** Series tags that are noise in a metric line. */
  predicate IsNoiseTag(p: Pair) {
    p.key == "__name__" || p.key == "job" || p.key == "instance"
  }

  function ShownTags(tags: seq<Pair>): (r: seq<Pair>)
    ensures forall p :: p in r <==> p in tags && !IsNoiseTag(p)
    ensures |r| <= |tags|
    decreases |tags|
  {
    if |tags| == 0 then []
    else (if IsNoiseTag(tags[0]) then [] else [tags[0]]) + ShownTags(tags[1..])
  }

  // ---------------------------------------------------------------------------
  // Rendering

  /** The first line and the State line, shared by both Grafana formats. */
  function Headline(emoji: string, name: string, stateColor: string): string {
    emoji + " *" + "Grafana Alert: " + name + "*\n\U{2022} *State:* " + stateColor
  }

  function StateEmoji(state: string): string {
    var s := ToUpper(state);
    if s == "ALERTING" then "\U{1F6A8}"
    else if s == "OK" then "\U{2705}"
    else if s == "NO_DATA" then "\U{26A0}\U{FE0F}"
    else if s == "PENDING" then "\U{23F3}"
    else "\U{1F4CA}"
  }

  function StateColor(state: string): string {
    var s := ToUpper(state);
    if s == "ALERTING" then "`\U{1F534} ALERTING`"
    else if s == "OK" then "`\U{1F7E2} OK`"
    else if s == "NO_DATA" then "`\U{1F7E1} NO_DATA`"
    else if s == "PENDING" then "`\U{1F7E1} PENDING`"
    else "`" + state + "`"
  }

  function Header(alert: GrafanaWebhook): string {
    Headline(StateEmoji(alert.state), alert.title, StateColor(alert.state))
  }

  /** The text's optional parts, in the order they are appended. */
  datatype Section =
    | RuleSection(ruleName: string)
    | DescriptionSection(text: string)
    | MetricsSection(matches: seq<EvalMatch>)
    | LabelsSection(labels: seq<Pair>)
    | DashboardSection(url: string)

  /** A part that appears when its condition holds. */
  function Part(present: bool, s: Section): (r: seq<Section>)
    ensures s in r <==> present
    ensures forall t :: t in r ==> t == s
  {
    if present then [s] else []
  }

  /** A match as it is printed: its noise tags are dropped. */
  function ShownMatch(m: EvalMatch): EvalMatch {
    EvalMatch(m.value, m.metric, ShownTags(m.tags))
  }

  /** The matches as printed, one for each of the alert's matches, in order. */
  function ShownMatches(ms: seq<EvalMatch>): seq<EvalMatch> {
    seq(|ms|, i requires 0 <= i < |ms| => ShownMatch(ms[i]))
  }

  function RuleSections(alert: GrafanaWebhook): seq<Section> {
    Part(alert.ruleName != "" && alert.ruleName != alert.title, RuleSection(alert.ruleName))
  }

  /**
    The parts formatGrafanaSlackMessage appends after the headline, each at
    most once. The label part lists only the shown labels, and the metrics
    part keeps every match, with its metric and value, but only its shown
    tags.
   */
  function Sections(alert: GrafanaWebhook): (r: seq<Section>)
    ensures forall s :: s in r ==>
              s == RuleSection(alert.ruleName) || s == DescriptionSection(alert.message)
              || s == MetricsSection(ShownMatches(alert.evalMatches)) || s == LabelsSection(ShownLabels(alert.tags))
              || s == DashboardSection(alert.ruleUrl)
    ensures forall s :: s in r && s.LabelsSection? ==> forall p :: p in s.labels ==> p.key != "channel" && p.val != ""
    ensures forall s :: s in r && s.MetricsSection? ==>
              && |s.matches| == |alert.evalMatches|
              && forall i :: 0 <= i < |s.matches| ==>
                   && s.matches[i].metric == alert.evalMatches[i].metric
                   && s.matches[i].value == alert.evalMatches[i].value
                   && forall p :: p in s.matches[i].tags <==> p in alert.evalMatches[i].tags && !IsNoiseTag(p)
  {
    var labels := ShownLabels(alert.tags);
    RuleSections(alert)
    + Part(alert.message != "", DescriptionSection(alert.message))
    + Part(|alert.evalMatches| > 0, MetricsSection(ShownMatches(alert.evalMatches)))
    + Part(|labels| > 0, LabelsSection(labels))
    + Part(alert.ruleUrl != "", DashboardSection(alert.ruleUrl))
  }

  lemma InParts(s: Section, a: seq<Section>, b: seq<Section>, c: seq<Section>, d: seq<Section>, e: seq<Section>)
    ensures s in a + b + c + d + e <==> s in a || s in b || s in c || s in d || s in e
  {
  }

  /**
    When each optional line appears: the Rule line only for a non-empty rule
    name that differs from the title; the Description line exactly for a
    non-empty message; the Metrics part exactly for a non-empty match list;
    the Labels part exactly when some label is shown; the Dashboard line
    exactly for a non-empty rule URL.
   */
  lemma SectionsPresence(alert: GrafanaWebhook)
    ensures RuleSection(alert.ruleName) in Sections(alert) <==> alert.ruleName != "" && alert.ruleName != alert.title
    ensures DescriptionSection(alert.message) in Sections(alert) <==> alert.message != ""
    ensures MetricsSection(ShownMatches(alert.evalMatches)) in Sections(alert) <==> |alert.evalMatches| > 0
    ensures LabelsSection(ShownLabels(alert.tags)) in Sections(alert) <==> exists p :: p in alert.tags && IsShownLabel(p)
    ensures DashboardSection(alert.ruleUrl) in Sections(alert) <==> alert.ruleUrl != ""
  {
    var labels := ShownLabels(alert.tags);
    var a := RuleSections(alert);
    var b := Part(alert.message != "", DescriptionSection(alert.message));
    var c := Part(|alert.evalMatches| > 0, MetricsSection(ShownMatches(alert.evalMatches)));
    var d := Part(|labels| > 0, LabelsSection(labels));
    var e := Part(alert.ruleUrl != "", DashboardSection(alert.ruleUrl));
    InParts(RuleSection(alert.ruleName), a, b, c, d, e);
    InParts(DescriptionSection(alert.message), a, b, c, d, e);
    InParts(MetricsSection(ShownMatches(alert.evalMatches)), a, b, c, d, e);
    InParts(LabelsSection(labels), a, b, c, d, e);
    InParts(DashboardSection(alert.ruleUrl), a, b, c, d, e);
    assert |labels| > 0 ==> labels[0] in labels;
  }

  /**
    `%.0f` for whole values, `%.2f` otherwise. Only a whole value within the
    int64 range counts as whole: one beyond it, such as 1e20, keeps two
    decimals.
   */
  function ValueText(v: real, fmt: Formatting): (r: string)
    ensures v.Floor as real == v && Int64Min <= v.Floor <= Int64Max ==> r == fmt.noDecimals(v)
    ensures v.Floor as real != v ==> r == fmt.twoDecimals(v)
    ensures v.Floor > Int64Max || v.Floor < Int64Min ==> r == fmt.twoDecimals(v)
  {
    if IsWhole(v) then fmt.noDecimals(v) else fmt.twoDecimals(v)
  }

  function TagText(p: Pair): string {
    "`" + p.key + "=" + p.val + "`"
  }

  /** The parenthesised list of a printed match's tags, or nothing when it has none. */
  function TagSuffix(tags: seq<Pair>): string {
    if |tags| == 0 then ""
    else " (" + Join(seq(|tags|, i requires 0 <= i < |tags| => TagText(tags[i])), ", ") + ")"
  }

  function MetricLine(m: EvalMatch, fmt: Formatting): string {
    "\n   \U{2192} `" + m.metric + "`: **" + ValueText(m.value, fmt) + "**" + TagSuffix(m.tags)
  }

  function MetricLines(ms: seq<EvalMatch>, fmt: Formatting): string
    decreases |ms|
  {
    if |ms| == 0 then "" else MetricLine(ms[0], fmt) + MetricLines(ms[1..], fmt)
  }

  function LabelLine(p: Pair): string {
    "   \U{2192} `" + p.key + "`: " + p.val
  }

  function RenderSection(s: Section, fmt: Formatting): string {
    match s
    case RuleSection(n) => "\n\U{2022} *Rule:* `" + n + "`"
    case DescriptionSection(t) => "\n" + "\U{2022} *Description:* " + t
    case MetricsSection(ms) => "\n\U{2022} *Metrics:*" + MetricLines(ms, fmt)
    case LabelsSection(ls) =>
      "\n\U{2022} *Labels:*\n" + Join(seq(|ls|, i requires 0 <= i < |ls| => LabelLine(ls[i])), "\n")
    case DashboardSection(u) => "\n\U{2022} *Dashboard:* <" + u + "|View Alert Rule>"
  }

  function RenderAll(ss: seq<Section>, fmt: Formatting): string
    decreases |ss|
  {
    if |ss| == 0 then "" else RenderSection(ss[0], fmt) + RenderAll(ss[1..], fmt)
  }

  /** Every part starts on a new line, so the rendered parts are empty or start with a line break. */
  lemma {:induction false} RenderAllStartsLine(ss: seq<Section>, fmt: Formatting)
    ensures RenderAll(ss, fmt) == "" || RenderAll(ss, fmt)[0] == '\n'
  {
    if |ss| > 0 {
      var first := RenderSection(ss[0], fmt);
      assert |first| > 0 && first[0] == '\n';
      assert RenderAll(ss, fmt)[0] == first[0];
    }
  }

  /** Rendering distributes over concatenation of parts. */
  lemma {:induction false} RenderAllAppend(a: seq<Section>, b: seq<Section>, fmt: Formatting)
    ensures RenderAll(a + b, fmt) == RenderAll(a, fmt) + RenderAll(b, fmt)
    decreases |a|
  {
    if |a| > 0 {
      assert (a + b)[1..] == a[1..] + b;
      RenderAllAppend(a[1..], b, fmt);
      Assoc(RenderSection(a[0], fmt), RenderAll(a[1..], fmt), RenderAll(b, fmt));
    } else {
      assert a + b == b;
    }
  }

  /** formatGrafanaSlackMessage. */
  function FormatGrafanaSlackMessage(alert: GrafanaWebhook, fmt: Formatting): string {
    Header(alert) + RenderAll(Sections(alert), fmt)
  }

  /** The text above the Description line. */
  function AboveDescription(alert: GrafanaWebhook, fmt: Formatting): string {
    Header(alert) + RenderAll(RuleSections(alert), fmt)
  }
}

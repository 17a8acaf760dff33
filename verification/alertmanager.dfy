/**
  The Alertmanager-style Grafana webhook, the one with an `alerts` list:
  the "no data" override, priority from the channel tag, routing by the
  common `alertname` label, and the enhanced and basic Slack texts
  (internal/adapter/message_adapter.go).

  Each alert is an untyped JSON object, so every field is looked up and
  pattern-matched as the Go code does with its type assertions.
 */
module Alertmanager {

  import opened Optional
  import opened Strings
  import opened Routing
  import opened Json
  import Grafana

  datatype AlertmanagerWebhook = AlertmanagerWebhook(
    alerts: seq<seq<Field>>,
    commonLabels: seq<Pair>,
    status: string,
    title: string,
    message: string
  )

  /** The first alert's label `key`, when there is a first alert with that label as a string. */
  function FirstAlertLabel(w: AlertmanagerWebhook, key: string): Option<string> {
    if |w.alerts| > 0 then GetNestedStr(w.alerts[0], "labels", key) else None
  }

  /** `labels[key].(string)` read the way the Go code does, "" when any step fails. */
  function LabelOrEmpty(alert: seq<Field>, key: string): string {
    match GetObj(alert, "labels")
    case Some(labels) =>
      (match Get(labels, key)
       case Some(Str(s)) => s
       case _ => "")
    case None => ""
  }

  // ---------------------------------------------------------------------------
  // Priority

  /**
   * A label read the way both the routing tag and the headline name are read:
   * the common label when non-empty, else the first alert's string label.
   */
  function CommonOrFirstLabel(w: AlertmanagerWebhook, key: string): (t: string)
    ensures LookupOrEmpty(w.commonLabels, key) != "" ==> t == LookupOrEmpty(w.commonLabels, key)
    ensures LookupOrEmpty(w.commonLabels, key) == "" ==> t == FirstAlertLabel(w, key).GetOr("")
  {
    var fromCommon := LookupOrEmpty(w.commonLabels, key);
    if fromCommon == "" && |w.alerts| > 0 then LabelOrEmpty(w.alerts[0], key) else fromCommon
  }

  /** The routing tag. */
  function ChannelTag(w: AlertmanagerWebhook): string {
    CommonOrFirstLabel(w, "channel")
  }

  /** The text, lower-cased, mentions missing data. */
  predicate SaysNoData(text: string) {
    var t := ToLower(text);
    Contains(t, "nodata") || Contains(t, "no data") || Contains(t, "data source")
  }

  /** An alert whose string `alertname` label or string `description` annotation mentions missing data. */
  predicate AlertSignalsNoData(alert: seq<Field>) {
    (match GetNestedStr(alert, "labels", "alertname")
     case Some(name) => SaysNoData(name)
     case None => false)
    ||
    (match GetNestedStr(alert, "annotations", "description")
     case Some(description) => SaysNoData(description)
     case None => false)
  }

  /** The loop over the alerts, stopping at the first one that signals missing data. */
  function ScanNoData(alerts: seq<seq<Field>>): (found: bool)
    ensures found <==> exists i :: 0 <= i < |alerts| && AlertSignalsNoData(alerts[i])
    decreases |alerts|
  {
    if |alerts| == 0 then false
    else if AlertSignalsNoData(alerts[0]) then true
    else
      var rest := ScanNoData(alerts[1..]);
      assert rest ==> exists i :: 0 <= i < |alerts| && AlertSignalsNoData(alerts[i]) by {
        if rest {
          var j :| 0 <= j < |alerts[1..]| && AlertSignalsNoData(alerts[1..][j]);
          assert AlertSignalsNoData(alerts[j + 1]);
        }
      }
      assert (exists i :: 0 <= i < |alerts| && AlertSignalsNoData(alerts[i])) ==> rest by {
        if exists i :: 0 <= i < |alerts| && AlertSignalsNoData(alerts[i]) {
          var i :| 0 <= i < |alerts| && AlertSignalsNoData(alerts[i]);
          assert i != 0;
          assert AlertSignalsNoData(alerts[1..][i - 1]);
        }
      }
      rest
  }

  /** The override: a firing webhook with some alert that signals missing data. */
  predicate NoDataOverride(w: AlertmanagerWebhook) {
    && ToUpper(w.status) == "FIRING"
    && |w.alerts| > 0
    && exists i :: 0 <= i < |w.alerts| && AlertSignalsNoData(w.alerts[i])
  }

  /**
    The priority adaptAlertmanagerWebhook settles on: P1 under the "no data"
    override whatever the tag says; otherwise the tag's priority, matched
    case-insensitively; an unknown or absent tag gives P2.
   */
  function AlertmanagerPriority(w: AlertmanagerWebhook): (p: Priority)
    ensures NoDataOverride(w) ==> p == P1
    ensures !NoDataOverride(w) ==> p == ParseTier(ChannelTag(w)).GetOr(P2)
  {
    if ToUpper(w.status) == "FIRING" && |w.alerts| > 0 && ScanNoData(w.alerts) then P1
    else
      var tag := ChannelTag(w);
      if tag != "" then
        var t := ToUpper(tag);
        if t == "P0" then P0
        else if t == "P1" then P1
        else if t == "P2" then P2
        else P2
      else P2
  }

  /** The override does not look at the labels the tag comes from. */
  lemma NoDataIgnoresTag(w: AlertmanagerWebhook, commonLabels: seq<Pair>)
    requires NoDataOverride(w)
    ensures AlertmanagerPriority(w.(commonLabels := commonLabels)) == P1
  {
    assert NoDataOverride(w.(commonLabels := commonLabels));
  }

  /** Without a firing status there is no override, whatever the alerts say. */
  lemma NoDataNeedsFiring(w: AlertmanagerWebhook)
    requires ToUpper(w.status) != "FIRING"
    ensures AlertmanagerPriority(w) == ParseTier(ChannelTag(w)).GetOr(P2)
  {
  }

  // ---------------------------------------------------------------------------
  // Routing

  /** The key of the explicit mapping: the common `alertname` label only. */
  function RoutingKey(w: AlertmanagerWebhook): string {
    LookupOrEmpty(w.commonLabels, "alertname")
  }

  /** adaptAlertmanagerWebhook. */
  function AdaptAlertmanagerWebhook(w: AlertmanagerWebhook, channels: map<string, string>,
                                    alarmChannels: map<string, string>): (r: AlertMessage)
    ensures r.priority == AlertmanagerPriority(w)
    ensures r.channel == Route(LookupOrEmpty(w.commonLabels, "alertname"), r.priority, channels, alarmChannels)
    ensures r.message == FormatEnhancedAlertMessage(w)
  {
    var priority := AlertmanagerPriority(w);
    var explicit := Routing.Entry(alarmChannels, RoutingKey(w));
    var channel :=
      if explicit != "" then explicit
      else
        var byPriority := Routing.Entry(channels, Name(priority));
        if byPriority != "" then byPriority else Routing.Entry(channels, "default");
    AlertMessage(FormatAlertmanagerSlackMessage(w), priority, channel)
  }

  /**
    The name in the headline can come from the first alert's labels, but the
    explicit mapping never does: without a common `alertname` label (and with
    no non-empty mapping for the empty name) the channel is the priority's or
    the default one.
   */
  lemma HeaderNameNotUsedForRouting(w: AlertmanagerWebhook, channels: map<string, string>,
                                    alarmChannels: map<string, string>)
    requires Lookup(w.commonLabels, "alertname").None?
    requires Routing.Entry(alarmChannels, "") == ""
    ensures var r := AdaptAlertmanagerWebhook(w, channels, alarmChannels);
            r.channel == (if Routing.Entry(channels, Name(r.priority)) != "" then channels[Name(r.priority)]
                          else Routing.Entry(channels, "default"))
  {
  }

  // ---------------------------------------------------------------------------
  // Rendering

  function StatusEmoji(status: string): string {
    var s := ToUpper(status);
    if s == "FIRING" then "\U{1F6A8}"
    else if s == "RESOLVED" then "\U{2705}"
    else "\U{1F4CA}"
  }

  function StatusColor(status: string): string {
    var s := ToUpper(status);
    if s == "FIRING" then "`\U{1F534} FIRING`"
    else if s == "RESOLVED" then "`\U{1F7E2} RESOLVED`"
    else "`" + status + "`"
  }

  /** The name in the headline. */
  function HeaderName(w: AlertmanagerWebhook): string {
    CommonOrFirstLabel(w, "alertname")
  }

  function Header(w: AlertmanagerWebhook): string {
    Grafana.Headline(StatusEmoji(w.status), HeaderName(w), StatusColor(w.status))
  }

  /** The lines appended after the headline. */
  datatype Line =
    | Description(text: string)
    | Annotation(heading: string, text: string)
    | ValueString(text: string)
    | Silence(url: string)
    | Generator(url: string)
    | DashboardLink(url: string)

  /**
    The Description line's text: the `description` annotation when that key
    is present at all (shown only as a non-empty string), else a non-empty
    string `summary`.
   */
  function DescriptionText(annotations: seq<Field>): Option<string> {
    match Get(annotations, "description")
    case Some(desc) =>
      (match desc
       case Str(d) => if d != "" then Some(d) else None
       case _ => None)
    case None =>
      (match Get(annotations, "summary")
       case Some(Str(s)) => if s != "" then Some(s) else None
       case _ => None)
  }

  /**
    `summary` is used only when the `description` key is absent; an empty or
    non-string description suppresses both.
   */
  lemma SummaryOnlyWithoutDescription(annotations: seq<Field>)
    ensures Get(annotations, "description").Some? ==>
              DescriptionText(annotations) == (if GetStr(annotations, "description").Some?
                                                  && GetStr(annotations, "description").value != ""
                                               then GetStr(annotations, "description") else None)
    ensures Get(annotations, "description").None? ==>
              DescriptionText(annotations) == (if GetStr(annotations, "summary").Some?
                                                  && GetStr(annotations, "summary").value != ""
                                               then GetStr(annotations, "summary") else None)
  {
  }

  /** `strings.ReplaceAll(key, "_", " ")`. */
  function ReplaceUnderscores(s: string): (r: string)
    ensures |r| == |s|
    ensures forall i :: 0 <= i < |s| ==> r[i] == (if s[i] == '_' then ' ' else s[i])
  {
    seq(|s|, i requires 0 <= i < |s| => if s[i] == '_' then ' ' else s[i])
  }

  /** An annotation key as a label: underscores become spaces, the first letter is upper-cased. */
  function Capitalize(key: string): string {
    var k := ReplaceUnderscores(key);
    if |k| > 0 then ToUpper(k[..1]) + k[1..] else k
  }

  /**
    A label keeps the key's length, has no underscore left, upper-cases the
    key's first character (an underscore there becoming a space) and keeps
    the rest.
   */
  lemma CapitalizeShape(key: string)
    ensures |Capitalize(key)| == |key|
    ensures |key| > 0 ==> Capitalize(key)[0] == UpperChar(if key[0] == '_' then ' ' else key[0])
    ensures '_' !in Capitalize(key)
    ensures forall i :: 0 < i < |key| ==> Capitalize(key)[i] == (if key[i] == '_' then ' ' else key[i])
  {
    var k := ReplaceUnderscores(key);
    if |k| > 0 {
      var c := Capitalize(key);
      assert c[0] == UpperChar(k[0]);
      forall i | 0 < i < |key|
        ensures c[i] == k[i]
      {
      }
    }
  }

  /** Annotations shown on a line of their own: neither description nor summary, a non-empty string. */
  predicate IsOtherAnnotation(f: Field) {
    f.key != "description" && f.key != "summary" && f.val.Str? && f.val.s != ""
  }

  function AnnotationLine(f: Field): Line
    requires f.val.Str?
  {
    Annotation(Capitalize(f.key), f.val.s)
  }

  /** The loop over the remaining annotations. */
  function OtherAnnotations(annotations: seq<Field>): (r: seq<Line>)
    ensures forall f :: f in annotations && IsOtherAnnotation(f) ==> AnnotationLine(f) in r
    ensures forall l :: l in r ==> exists f :: f in annotations && IsOtherAnnotation(f) && l == AnnotationLine(f)
    decreases |annotations|
  {
    if |annotations| == 0 then []
    else
      var f := annotations[0];
      var rest := OtherAnnotations(annotations[1..]);
      assert forall g :: g in annotations[1..] ==> g in annotations;
      assert forall g :: g in annotations ==> g == f || g in annotations[1..];
      if f.key == "description" || f.key == "summary" then rest
      else
        match f.val
        case Str(v) => if v != "" then [AnnotationLine(f)] + rest else rest
        case _ => rest
  }

  /** A line that is present when its value is a non-empty string. */
  function LineIf(v: Option<string>, make: string -> Line): seq<Line> {
    match v
    case Some(s) => if s != "" then [make(s)] else []
    case None => []
  }

  /** The first alert's annotations, when there is a first alert and they are an object. */
  function FirstAnnotations(w: AlertmanagerWebhook): Option<seq<Field>> {
    if |w.alerts| == 0 then None else GetObj(w.alerts[0], "annotations")
  }

  function DescriptionLines(w: AlertmanagerWebhook): seq<Line> {
    match FirstAnnotations(w)
    case Some(annotations) => LineIf(DescriptionText(annotations), t => Description(t))
    case None => []
  }

  function AnnotationLines(w: AlertmanagerWebhook): seq<Line> {
    match FirstAnnotations(w)
    case Some(annotations) => OtherAnnotations(annotations)
    case None => []
  }

  function GeneratorLines(w: AlertmanagerWebhook): seq<Line> {
    if |w.alerts| == 0 then [] else LineIf(GetStr(w.alerts[0], "generatorURL"), u => Generator(u))
  }

  /** The dashboard link, shown only when it differs from the generator URL. */
  function DashboardLines(w: AlertmanagerWebhook): seq<Line> {
    if |w.alerts| == 0 then []
    else
      var alert := w.alerts[0];
      match GetStr(alert, "dashboardURL")
      case Some(d) =>
        var generator := GetStr(alert, "generatorURL").GetOr("");
        if d != "" && d != generator then [DashboardLink(d)] else []
      case None => []
  }

  /** The lines formatEnhancedAlertMessage appends, all taken from the first alert. */
  function EnhancedLines(w: AlertmanagerWebhook): seq<Line> {
    var rest :=
      if |w.alerts| == 0 then []
      else
        LineIf(GetStr(w.alerts[0], "valueString"), v => ValueString(v))
        + LineIf(GetStr(w.alerts[0], "silenceURL"), u => Silence(u))
        + GeneratorLines(w)
        + DashboardLines(w);
    DescriptionLines(w) + AnnotationLines(w) + rest
  }

  /** The lines formatBasicAlertMessage appends. */
  function BasicLines(w: AlertmanagerWebhook): seq<Line> {
    DescriptionLines(w) + GeneratorLines(w)
  }

  /** The dashboard link appears exactly when it is a non-empty string different from the generator URL. */
  lemma DashboardLinkPresence(w: AlertmanagerWebhook, d: string)
    ensures DashboardLink(d) in EnhancedLines(w) <==>
              && |w.alerts| > 0
              && GetStr(w.alerts[0], "dashboardURL") == Some(d)
              && d != ""
              && d != GetStr(w.alerts[0], "generatorURL").GetOr("")
  {
    if |w.alerts| > 0 {
      var alert := w.alerts[0];
      var a := DescriptionLines(w);
      var b := AnnotationLines(w);
      var c := LineIf(GetStr(alert, "valueString"), v => ValueString(v));
      var e := LineIf(GetStr(alert, "silenceURL"), u => Silence(u));
      assert DashboardLink(d) !in a;
      assert DashboardLink(d) !in b;
      assert DashboardLink(d) !in c && DashboardLink(d) !in e;
      assert DashboardLink(d) !in GeneratorLines(w);
      assert EnhancedLines(w) == a + b + (c + e + GeneratorLines(w) + DashboardLines(w));
    }
  }

  /** Keeps the lines the basic format also has. */
  function BasicOnly(lines: seq<Line>): (r: seq<Line>)
    ensures forall l :: l in r <==> l in lines && (l.Description? || l.Generator?)
    decreases |lines|
  {
    if |lines| == 0 then []
    else (if lines[0].Description? || lines[0].Generator? then [lines[0]] else []) + BasicOnly(lines[1..])
  }

  lemma {:induction false} BasicOnlyAppend(a: seq<Line>, b: seq<Line>)
    ensures BasicOnly(a + b) == BasicOnly(a) + BasicOnly(b)
    decreases |a|
  {
    if |a| == 0 {
      assert a + b == b;
    } else {
      assert (a + b)[1..] == a[1..] + b;
      BasicOnlyAppend(a[1..], b);
    }
  }

  lemma {:induction false} BasicOnlyKeepsAll(lines: seq<Line>)
    requires forall l :: l in lines ==> l.Description? || l.Generator?
    ensures BasicOnly(lines) == lines
    decreases |lines|
  {
    if |lines| > 0 {
      assert forall l :: l in lines[1..] ==> l in lines;
      BasicOnlyKeepsAll(lines[1..]);
      assert [lines[0]] + lines[1..] == lines;
    }
  }

  lemma {:induction false} BasicOnlyDropsAll(lines: seq<Line>)
    requires forall l :: l in lines ==> !l.Description? && !l.Generator?
    ensures BasicOnly(lines) == []
    decreases |lines|
  {
    if |lines| > 0 {
      assert forall l :: l in lines[1..] ==> l in lines;
      BasicOnlyDropsAll(lines[1..]);
    }
  }

  /**
    The basic format is the enhanced one without the other annotations, the
    value string, the silence link and the dashboard link.
   */
  lemma BasicIsEnhancedFiltered(w: AlertmanagerWebhook)
    ensures BasicLines(w) == BasicOnly(EnhancedLines(w))
  {
    var a := DescriptionLines(w);
    var b := AnnotationLines(w);
    var g := GeneratorLines(w);
    BasicOnlyKeepsAll(a);
    BasicOnlyKeepsAll(g);
    BasicOnlyDropsAll(b);
    if |w.alerts| == 0 {
      BasicOnlyAppend(a, b);
      assert EnhancedLines(w) == a + b + [];
      assert BasicOnly(a + b + []) == BasicOnly(a + b) by {
        assert a + b + [] == a + b;
      }
      assert g == [];
      assert BasicLines(w) == a;
    } else {
      var alert := w.alerts[0];
      var c := LineIf(GetStr(alert, "valueString"), v => ValueString(v));
      var e := LineIf(GetStr(alert, "silenceURL"), u => Silence(u));
      var d := DashboardLines(w);
      BasicOnlyDropsAll(c);
      BasicOnlyDropsAll(e);
      BasicOnlyDropsAll(d);
      BasicOnlyAppend(a, b);
      BasicOnlyAppend(c, e);
      BasicOnlyAppend(c + e, g);
      BasicOnlyAppend(c + e + g, d);
      BasicOnlyAppend(a + b, c + e + g + d);
      assert EnhancedLines(w) == a + b + (c + e + g + d);
    }
  }

  function RenderLine(l: Line): string {
    match l
    case Description(t) => "\n" + "\U{2022} *Description:* " + t
    case Annotation(heading, t) => "\n\U{2022} *" + heading + ":* " + t
    case ValueString(t) => "\n\U{2022} *ValueString:* " + t
    case Silence(u) => "\n\U{2022} *Silence:* <" + u + "|Silence Alert>"
    case Generator(u) => "\n\U{2022} *Dashboard:* <" + u + "|View Alert Rule>"
    case DashboardLink(u) => "\n\U{2022} *Dashboard:* <" + u + "|View Dashboard>"
  }

  function RenderLines(lines: seq<Line>): string
    decreases |lines|
  {
    if |lines| == 0 then "" else RenderLine(lines[0]) + RenderLines(lines[1..])
  }

  /** Every line starts with a line break. */
  lemma {:induction false} RenderLinesStartsLine(lines: seq<Line>)
    ensures RenderLines(lines) == "" || RenderLines(lines)[0] == '\n'
  {
    if |lines| > 0 {
      var first := RenderLine(lines[0]);
      assert |first| > 0 && first[0] == '\n';
      assert RenderLines(lines)[0] == first[0];
    }
  }

  lemma {:induction false} RenderLinesAppend(a: seq<Line>, b: seq<Line>)
    ensures RenderLines(a + b) == RenderLines(a) + RenderLines(b)
    decreases |a|
  {
    if |a| > 0 {
      assert (a + b)[1..] == a[1..] + b;
      RenderLinesAppend(a[1..], b);
      Assoc(RenderLine(a[0]), RenderLines(a[1..]), RenderLines(b));
    } else {
      assert a + b == b;
    }
  }

  /** formatEnhancedAlertMessage: never empty, since the headline always is there. */
  function FormatEnhancedAlertMessage(w: AlertmanagerWebhook): (r: string)
    ensures |r| >= |Header(w)| > 0
    ensures r[..|Header(w)|] == Header(w)
  {
    Header(w) + RenderLines(EnhancedLines(w))
  }

  /** formatBasicAlertMessage. */
  function FormatBasicAlertMessage(w: AlertmanagerWebhook): string {
    Header(w) + RenderLines(BasicLines(w))
  }

  /** formatAlertmanagerSlackMessage: the basic fallback is never taken. */
  function FormatAlertmanagerSlackMessage(w: AlertmanagerWebhook): (r: string)
    ensures r == FormatEnhancedAlertMessage(w)
  {
    var enhanced := FormatEnhancedAlertMessage(w);
    if enhanced != "" then enhanced else FormatBasicAlertMessage(w)
  }
}

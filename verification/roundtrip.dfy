/**
  The interactive handler recovers an alert's name and description from the
  text the adapters rendered. These lemmas connect the two sides: the
  renderers in internal/adapter/message_adapter.go and extractAlertInfo in
  internal/server/server.go.
 */
module RoundTrip {

  import opened Optional
  import opened Strings
  import opened Library
  import opened Extraction
  import CloudWatch
  import Grafana
  import Alertmanager
  import Interactive

  /** A name the `[^*\n]+` group can capture whole. */
  predicate Capturable(name: string) {
    name != "" && '*' !in name && '\n' !in name
  }

  /** A description the `[^\n]+` group can capture whole. */
  predicate OneLine(text: string) {
    text != "" && '\n' !in text
  }

  /** What follows the alarm's name in the rendering. */
  function AfterName(alarm: CloudWatch.CloudWatchAlarm, fmt: Formatting): string {
    "*\n" + CloudWatch.DetailLines(alarm, fmt) + CloudWatchReason + alarm.newStateReason
    + CloudWatch.TimeLine(alarm, fmt)
  }

  /** The rendering regrouped around the alarm's name. */
  lemma NameShape(alarm: CloudWatch.CloudWatchAlarm, fmt: Formatting)
    ensures CloudWatch.FormatSlackMessage(alarm, fmt)
         == CloudWatch.HeadlineStart(alarm) + CloudWatchName + alarm.alarmName + AfterName(alarm, fmt)
  {
    var q := CloudWatch.HeadlineStart(alarm) + CloudWatchName + alarm.alarmName;
    var details := CloudWatch.DetailLines(alarm, fmt);
    var reason := alarm.newStateReason;
    Assoc(q, "*\n", details);
    Assoc(q, "*\n" + details, CloudWatchReason);
    Assoc(q, "*\n" + details + CloudWatchReason, reason);
    Assoc(q, "*\n" + details + CloudWatchReason + reason, CloudWatch.TimeLine(alarm, fmt));
  }

  /**
    Extracting from a rendered CloudWatch alarm gives back the alarm's name
    (trimmed), provided the name is capturable and the text does not also
    look like Grafana text.
   */
  lemma CloudWatchNameRoundTrip(alarm: CloudWatch.CloudWatchAlarm, fmt: Formatting)
    requires Capturable(alarm.alarmName)
    requires !Contains(CloudWatch.FormatSlackMessage(alarm, fmt), "Grafana Alert:")
    ensures ExtractAlertInfo(CloudWatch.FormatSlackMessage(alarm, fmt)).name == TrimSpace(alarm.alarmName)
  {
    NameShape(alarm, fmt);
    CloudWatchMarkerPresent(alarm, fmt);
    CloudWatchTextInfo(CloudWatch.FormatSlackMessage(alarm, fmt));
    HeadlineStartHasNoC(alarm);
    NoNameStops(alarm.alarmName);
    CaptureAfterFreshStart(CloudWatch.HeadlineStart(alarm), CloudWatchName, alarm.alarmName,
                           AfterName(alarm, fmt), NameStops);
  }

  lemma HeadlineStartHasNoC(alarm: CloudWatch.CloudWatchAlarm)
    ensures CloudWatchName[0] !in CloudWatch.HeadlineStart(alarm)
  {
  }

  /** Every rendered CloudWatch alarm carries the CloudWatch marker. */
  lemma CloudWatchMarkerPresent(alarm: CloudWatch.CloudWatchAlarm, fmt: Formatting)
    ensures Contains(CloudWatch.FormatSlackMessage(alarm, fmt), "CloudWatch Alarm:")
  {
    var pre := CloudWatch.HeadlineStart(alarm);
    var rest := alarm.alarmName + AfterName(alarm, fmt);
    NameShape(alarm, fmt);
    Assoc(pre + CloudWatchName, alarm.alarmName, AfterName(alarm, fmt));
    ContainsMiddle(pre, CloudWatchName, rest);
    ContainsPrefixOf(CloudWatch.FormatSlackMessage(alarm, fmt), CloudWatchName, "CloudWatch Alarm:");
  }

  /**
    Extracting from a rendered CloudWatch alarm gives back its state reason
    (trimmed), provided the reason is one non-empty line and nothing rendered
    above the "Reason" line already spells the reason marker.
   */
  lemma CloudWatchReasonRoundTrip(alarm: CloudWatch.CloudWatchAlarm, fmt: Formatting)
    requires OneLine(alarm.newStateReason)
    requires !Contains(CloudWatch.FormatSlackMessage(alarm, fmt), "Grafana Alert:")
    requires !Contains(CloudWatch.Head(alarm, fmt), CloudWatchReason)
    ensures ExtractAlertInfo(CloudWatch.FormatSlackMessage(alarm, fmt)).description
            == TrimSpace(alarm.newStateReason)
  {
    var head := CloudWatch.Head(alarm, fmt);
    var reason := alarm.newStateReason;
    var tail := CloudWatch.TimeLine(alarm, fmt);
    CloudWatchMarkerPresent(alarm, fmt);
    CloudWatchTextInfo(CloudWatch.FormatSlackMessage(alarm, fmt));
    HeadEndsWithLineBreak(alarm, fmt);
    MarkersOnOneLine();
    NoLineStops(reason);
    TimeLineStartsLine(alarm, fmt);
    CaptureAfterClosedPrefix(head, CloudWatchReason, reason, tail, LineStops);
  }

  /** The Time line starts on a new line. */
  lemma TimeLineStartsLine(alarm: CloudWatch.CloudWatchAlarm, fmt: Formatting)
    ensures |CloudWatch.TimeLine(alarm, fmt)| > 0 && CloudWatch.TimeLine(alarm, fmt)[0] == '\n'
  {
  }

  /** The text above the "Reason" line ends with a line break. */
  lemma HeadEndsWithLineBreak(alarm: CloudWatch.CloudWatchAlarm, fmt: Formatting)
    ensures var head := CloudWatch.Head(alarm, fmt); |head| > 0 && head[|head| - 1] == '\n'
  {
    var details := CloudWatch.DetailLines(alarm, fmt);
    var front := CloudWatch.HeadlineStart(alarm) + "CloudWatch Alarm: " + alarm.alarmName + "*\n";
    LastOf(front, details);
    assert details[|details| - 1] == '\n';
  }

  lemma LastOf(a: string, b: string)
    requires |b| > 0
    ensures (a + b)[|a + b| - 1] == b[|b| - 1]
  {
  }

  // ---------------------------------------------------------------------------
  // Grafana headlines, shared by the legacy and the Alertmanager-style text

  /** The headline regrouped around the name. */
  lemma HeadlineShape(emoji: string, name: string, color: string, rest: string)
    ensures Grafana.Headline(emoji, name, color) + rest
         == emoji + " *" + GrafanaName + name + ("*\n\U{2022} *State:* " + color + rest)
  {
    var q := emoji + " *" + GrafanaName + name;
    Assoc(q, "*\n\U{2022} *State:* ", color);
    Assoc(q, "*\n\U{2022} *State:* " + color, rest);
  }

  /** Every Grafana headline carries the Grafana marker. */
  lemma GrafanaMarkerPresent(emoji: string, name: string, color: string, rest: string)
    ensures Contains(Grafana.Headline(emoji, name, color) + rest, "Grafana Alert:")
  {
    var start := emoji + " *";
    var after := "*\n\U{2022} *State:* " + color + rest;
    HeadlineShape(emoji, name, color, rest);
    Assoc(start + GrafanaName, name, after);
    ContainsMiddle(start, GrafanaName, name + after);
    ContainsPrefixOf(Grafana.Headline(emoji, name, color) + rest, GrafanaName, "Grafana Alert:");
  }

  /** Extraction gives back the headline's name, trimmed, when the name is capturable. */
  lemma HeadlineNameRoundTrip(emoji: string, name: string, color: string, rest: string)
    requires 'G' !in emoji
    requires Capturable(name)
    ensures ExtractAlertInfo(Grafana.Headline(emoji, name, color) + rest).name == TrimSpace(name)
  {
    HeadlineShape(emoji, name, color, rest);
    GrafanaMarkerPresent(emoji, name, color, rest);
    assert 'G' !in emoji + " *";
    CaptureAfterFreshStart(emoji + " *", GrafanaName, name, "*\n\U{2022} *State:* " + color + rest, NameStops);
  }

  /** The Description pattern captures the line after the first Description marker. */
  lemma DescriptionCapture(above: string, d: string, post: string)
    requires !Contains(above, GrafanaDescription)
    requires OneLine(d)
    requires post == "" || post[0] == '\n'
    ensures Capture(above + "\n" + GrafanaDescription + d + post, GrafanaDescription, LineStops) == Some(d)
  {
    var pre := above + "\n";
    MarkersOnOneLine();
    NotContainsAppend(above, '\n', GrafanaDescription);
    assert pre[|pre| - 1] == '\n';
    NoLineStops(d);
    assert |post| == 0 || post[0] in LineStops;
    CaptureAfterClosedPrefix(pre, GrafanaDescription, d, post, LineStops);
  }

  /** Text that carries the Grafana marker still carries it with more text after it. */
  lemma StillMarked(above: string, d: string, post: string)
    requires Contains(above, "Grafana Alert:")
    ensures Contains(above + "\n" + GrafanaDescription + d + post, "Grafana Alert:")
  {
    var pre := above + "\n";
    ContainsExtend(above, "\n", "Grafana Alert:");
    ContainsExtend(pre, GrafanaDescription, "Grafana Alert:");
    ContainsExtend(pre + GrafanaDescription, d, "Grafana Alert:");
    ContainsExtend(pre + GrafanaDescription + d, post, "Grafana Alert:");
  }

  /**
    Extraction gives back a Description line's text, trimmed, when it is one
    non-empty line and the Grafana text above it does not spell the marker.
   */
  lemma DescriptionRoundTrip(above: string, d: string, post: string)
    requires Contains(above, "Grafana Alert:")
    requires !Contains(above, GrafanaDescription)
    requires OneLine(d)
    requires post == "" || post[0] == '\n'
    ensures ExtractAlertInfo(above + "\n" + GrafanaDescription + d + post).description == TrimSpace(d)
  {
    var text := above + "\n" + GrafanaDescription + d + post;
    StillMarked(above, d, post);
    GrafanaTextInfo(text);
    DescriptionCapture(above, d, post);
  }

  lemma LegacyEmojiHasNoG(state: string)
    ensures 'G' !in Grafana.StateEmoji(state)
  {
  }

  lemma StatusEmojiHasNoG(status: string)
    ensures 'G' !in Alertmanager.StatusEmoji(status)
  {
  }

  /** The legacy text gives back its title, trimmed, when the title is capturable. */
  lemma GrafanaNameRoundTrip(alert: Grafana.GrafanaWebhook, fmt: Formatting)
    requires Capturable(alert.title)
    ensures ExtractAlertInfo(Grafana.FormatGrafanaSlackMessage(alert, fmt)).name == TrimSpace(alert.title)
  {
    LegacyEmojiHasNoG(alert.state);
    HeadlineNameRoundTrip(Grafana.StateEmoji(alert.state), alert.title, Grafana.StateColor(alert.state),
                          Grafana.RenderAll(Grafana.Sections(alert), fmt));
  }

  /** The legacy parts that follow the Description line. */
  function LaterSections(alert: Grafana.GrafanaWebhook): seq<Grafana.Section> {
    var labels := Grafana.ShownLabels(alert.tags);
    Grafana.Part(|alert.evalMatches| > 0, Grafana.MetricsSection(Grafana.ShownMatches(alert.evalMatches)))
    + Grafana.Part(|labels| > 0, Grafana.LabelsSection(labels))
    + Grafana.Part(alert.ruleUrl != "", Grafana.DashboardSection(alert.ruleUrl))
  }

  /** With a message, the legacy parts are the rule part, the Description, then the later parts. */
  lemma LegacySections(alert: Grafana.GrafanaWebhook)
    requires alert.message != ""
    ensures Grafana.Sections(alert)
         == Grafana.RuleSections(alert) + ([Grafana.DescriptionSection(alert.message)] + LaterSections(alert))
  {
  }

  /** A legacy text with a message splits around its Description line. */
  lemma LegacyShape(alert: Grafana.GrafanaWebhook, fmt: Formatting)
    requires alert.message != ""
    ensures Grafana.FormatGrafanaSlackMessage(alert, fmt)
         == Grafana.AboveDescription(alert, fmt) + "\n" + GrafanaDescription + alert.message
            + Grafana.RenderAll(LaterSections(alert), fmt)
  {
    var rule := Grafana.RuleSections(alert);
    var desc := [Grafana.DescriptionSection(alert.message)];
    var later := LaterSections(alert);
    LegacySections(alert);
    Grafana.RenderAllAppend(rule, desc + later, fmt);
    Grafana.RenderAllAppend(desc, later, fmt);
    var line := "\n" + GrafanaDescription + alert.message;
    DescriptionRendering(alert.message, fmt);
    var above := Grafana.AboveDescription(alert, fmt);
    var post := Grafana.RenderAll(later, fmt);
    Assoc(Grafana.Header(alert), Grafana.RenderAll(rule, fmt), line + post);
    Assoc(above, line, post);
    Assoc(above, "\n" + GrafanaDescription, alert.message);
    Assoc(above, "\n", GrafanaDescription);
  }

  /** A lone Description part renders as its line. */
  lemma DescriptionRendering(m: string, fmt: Formatting)
    ensures Grafana.RenderAll([Grafana.DescriptionSection(m)], fmt) == "\n" + GrafanaDescription + m
  {
    var line := "\n" + GrafanaDescription + m;
    assert Grafana.RenderAll([Grafana.DescriptionSection(m)], fmt) == line + "";
    assert line + "" == line;
  }

  /** The text above a legacy Description line already carries the Grafana marker. */
  lemma AboveDescriptionMarked(alert: Grafana.GrafanaWebhook, fmt: Formatting)
    ensures Contains(Grafana.AboveDescription(alert, fmt), "Grafana Alert:")
  {
    GrafanaMarkerPresent(Grafana.StateEmoji(alert.state), alert.title, Grafana.StateColor(alert.state),
                         Grafana.RenderAll(Grafana.RuleSections(alert), fmt));
  }

  /**
    The legacy text gives back its message, trimmed, when the message is one
    non-empty line and nothing above the Description line spells the marker.
   */
  lemma GrafanaDescriptionRoundTrip(alert: Grafana.GrafanaWebhook, fmt: Formatting)
    requires OneLine(alert.message)
    requires !Contains(Grafana.AboveDescription(alert, fmt), GrafanaDescription)
    ensures ExtractAlertInfo(Grafana.FormatGrafanaSlackMessage(alert, fmt)).description == TrimSpace(alert.message)
  {
    LegacyShape(alert, fmt);
    Grafana.RenderAllStartsLine(LaterSections(alert), fmt);
    AboveDescriptionMarked(alert, fmt);
    DescriptionRoundTrip(Grafana.AboveDescription(alert, fmt), alert.message,
                         Grafana.RenderAll(LaterSections(alert), fmt));
  }

  /** The Alertmanager-style text gives back its headline name, trimmed, when that name is capturable. */
  lemma AlertmanagerNameRoundTrip(w: Alertmanager.AlertmanagerWebhook)
    requires Capturable(Alertmanager.HeaderName(w))
    ensures ExtractAlertInfo(Alertmanager.FormatAlertmanagerSlackMessage(w)).name
         == TrimSpace(Alertmanager.HeaderName(w))
  {
    StatusEmojiHasNoG(w.status);
    HeadlineNameRoundTrip(Alertmanager.StatusEmoji(w.status), Alertmanager.HeaderName(w),
                          Alertmanager.StatusColor(w.status),
                          Alertmanager.RenderLines(Alertmanager.EnhancedLines(w)));
  }

  /** The first Alertmanager-style line is the Description when the first alert has one. */
  lemma DescriptionLineFirst(w: Alertmanager.AlertmanagerWebhook, d: string)
    requires |w.alerts| > 0 && Alertmanager.FirstAnnotations(w).Some?
    requires Alertmanager.DescriptionText(Alertmanager.FirstAnnotations(w).value) == Some(d)
    ensures |Alertmanager.EnhancedLines(w)| > 0
    ensures Alertmanager.EnhancedLines(w) == [Alertmanager.Description(d)] + Alertmanager.EnhancedLines(w)[1..]
  {
  }

  /** An Alertmanager-style text whose first line is a Description splits around it. */
  lemma EnhancedShape(w: Alertmanager.AlertmanagerWebhook, d: string)
    requires |w.alerts| > 0 && Alertmanager.FirstAnnotations(w).Some?
    requires Alertmanager.DescriptionText(Alertmanager.FirstAnnotations(w).value) == Some(d)
    ensures |Alertmanager.EnhancedLines(w)| > 0
    ensures Alertmanager.FormatAlertmanagerSlackMessage(w)
         == Alertmanager.Header(w) + "\n" + GrafanaDescription + d
            + Alertmanager.RenderLines(Alertmanager.EnhancedLines(w)[1..])
  {
    DescriptionLineFirst(w, d);
    var header := Alertmanager.Header(w);
    var rest := Alertmanager.EnhancedLines(w)[1..];
    Alertmanager.RenderLinesAppend([Alertmanager.Description(d)], rest);
    var line := "\n" + GrafanaDescription + d;
    assert Alertmanager.RenderLines([Alertmanager.Description(d)]) == line + "";
    assert line + "" == line;
    var post := Alertmanager.RenderLines(rest);
    Assoc(header, "\n" + GrafanaDescription, d);
    Assoc(header, "\n", GrafanaDescription);
    Assoc(header, line, post);
  }

  /**
    The Alertmanager-style text gives back the first alert's description (or
    summary), trimmed, when it is one non-empty line and the headline does
    not spell the marker.
   */
  lemma AlertmanagerDescriptionRoundTrip(w: Alertmanager.AlertmanagerWebhook, d: string)
    requires |w.alerts| > 0 && Alertmanager.FirstAnnotations(w).Some?
    requires Alertmanager.DescriptionText(Alertmanager.FirstAnnotations(w).value) == Some(d)
    requires OneLine(d)
    requires !Contains(Alertmanager.Header(w), GrafanaDescription)
    ensures ExtractAlertInfo(Alertmanager.FormatAlertmanagerSlackMessage(w)).description == TrimSpace(d)
  {
    EnhancedShape(w, d);
    var rest := Alertmanager.EnhancedLines(w)[1..];
    Alertmanager.RenderLinesStartsLine(rest);
    GrafanaMarkerPresent(Alertmanager.StatusEmoji(w.status), Alertmanager.HeaderName(w),
                         Alertmanager.StatusColor(w.status), "");
    assert Alertmanager.Header(w) + "" == Alertmanager.Header(w);
    DescriptionRoundTrip(Alertmanager.Header(w), d, Alertmanager.RenderLines(rest));
  }

  // ---------------------------------------------------------------------------
  // From the posted alert to the button reply

  /**
    A button click on a posted CloudWatch alarm is answered with the alarm's
    name, quoted, in the bold first line.
   */
  lemma ClickedCloudWatchAlarmIsNamed(p: Interactive.SlackPayload, alarm: CloudWatch.CloudWatchAlarm,
                                      fmt: Formatting, actionId: string, alertId: string)
    requires p.messageText == CloudWatch.FormatSlackMessage(alarm, fmt)
    requires Capturable(alarm.alarmName) && TrimSpace(alarm.alarmName) != ""
    requires !Contains(p.messageText, "Grafana Alert:")
    requires actionId in Interactive.NotifierActionIds
    ensures Interactive.AlertInfoOf(p).name == TrimSpace(alarm.alarmName)
    ensures var acknowledged := actionId == "acknowledge";
            IsPrefix(Interactive.Head(if acknowledged then "\U{2705}" else "\U{274C}",
                                      "'" + TrimSpace(alarm.alarmName) + "'",
                                      if acknowledged then "acknowledged" else "dismissed", p.userName),
                     Interactive.ReplyText(actionId, alertId, p.userName, Interactive.AlertInfoOf(p)))
  {
    CloudWatchNameRoundTrip(alarm, fmt);
    Interactive.ReplyWithName(actionId, alertId, p.userName, Interactive.AlertInfoOf(p));
  }
}

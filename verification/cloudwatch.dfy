/**
  CloudWatch alarms delivered through SNS and SQS: priority, routing and the
  Slack text (internal/adapter/message_adapter.go).
 */
module CloudWatch {

  import opened Optional
  import opened Strings
  import opened Library
  import opened Routing

  datatype Dimension = Dimension(name: string, value: string)

  datatype Trigger = Trigger(
    metricName: string,
    namespace: string,
    statistic: string,
    comparisonOperator: string,
    threshold: real,
    period: int,
    evaluationPeriods: int,
    dimensions: seq<Dimension>
  )

  /** The decoded alarm. A field missing from the JSON decodes to its zero value. */
  datatype CloudWatchAlarm = CloudWatchAlarm(
    alarmName: string,
    alarmDescription: Option<string>,
    awsAccountId: string,
    newStateValue: string,
    oldStateValue: string,
    newStateReason: string,
    stateChangeTime: string,
    region: string,
    alarmArn: string,
    trigger: Trigger
  )

  /** The SNS envelope around the alarm JSON. */
  datatype Envelope = Envelope(message: string, subject: string)

  datatype AdaptError = EnvelopeNotDecoded | AlarmNotDecoded

  // ---------------------------------------------------------------------------
  // Priority

  predicate NamespaceIsCritical(namespace: string) {
    Contains(namespace, "RDS") || Contains(namespace, "DynamoDB")
    || Contains(namespace, "ELB") || Contains(namespace, "5xx")
  }

  /** The heuristic priority of an alarm, used when no explicit mapping applies. */
  function DeterminePriority(alarm: CloudWatchAlarm): (p: Priority)
    ensures var name := ToLower(alarm.alarmName);
            p == P0 <==> (Contains(name, "prod") || NamespaceIsCritical(alarm.trigger.namespace)
                          || Contains(name, "cpu") || Contains(name, "memory"))
    ensures var name := ToLower(alarm.alarmName);
            p == P1 <==> (p != P0 && (Contains(name, "redis") || Contains(name, "elasticache")))
  {
    var name := ToLower(alarm.alarmName);
    var namespace := alarm.trigger.namespace;
    ProdSubsumesProduction(name);
    if Contains(name, "prod") || Contains(name, "production") then P0
    else if Contains(namespace, "RDS") || Contains(namespace, "DynamoDB") then P0
    else if Contains(namespace, "ELB") || Contains(namespace, "5xx") then P0
    else if Contains(name, "cpu") || Contains(name, "memory") then P0
    else if Contains(name, "redis") || Contains(name, "elasticache") then P1
    else if Contains(name, "qa") || Contains(name, "staging") then P2
    else P2
  }

  /** The "production" test adds nothing to the "prod" test before it. */
  lemma ProdSubsumesProduction(name: string)
    ensures Contains(name, "production") ==> Contains(name, "prod")
  {
    if Contains(name, "production") {
      ContainsIff(name, "production");
      var i :| OccursAt(name, "production", i);
      assert name[i..i + 4] == name[i..i + 10][..4];
      assert OccursAt(name, "prod", i);
      ContainsIff(name, "prod");
    }
  }

  /**
    The namespace test is case-sensitive: with a name that carries no keyword,
    "AWS/RDS" is critical and "aws/rds" is not.
   */
  lemma NamespaceIsCaseSensitive(alarm: CloudWatchAlarm)
    ensures DeterminePriority(alarm.(alarmName := "", trigger := alarm.trigger.(namespace := "AWS/RDS"))) == P0
    ensures DeterminePriority(alarm.(alarmName := "", trigger := alarm.trigger.(namespace := "aws/rds"))) == P2
  {
    UpperNamespaceIsCritical();
    LowerNamespaceIsNotCritical();
    EmptyNameHasNoKeyword();
  }

  lemma UpperNamespaceIsCritical()
    ensures NamespaceIsCritical("AWS/RDS")
  {
    ContainsMiddle("AWS/", "RDS", "");
    assert "AWS/" + "RDS" + "" == "AWS/RDS";
  }

  lemma LowerNamespaceIsNotCritical()
    ensures !NamespaceIsCritical("aws/rds")
  {
    NotContainsForeignChar("aws/rds", "RDS", 'R');
    NotContainsForeignChar("aws/rds", "DynamoDB", 'D');
    NotContainsForeignChar("aws/rds", "ELB", 'E');
    NotContainsForeignChar("aws/rds", "5xx", '5');
  }

  lemma EmptyNameHasNoKeyword()
    ensures ToLower("") == ""
    ensures !Contains("", "prod") && !Contains("", "cpu") && !Contains("", "memory")
    ensures !Contains("", "redis") && !Contains("", "elasticache")
  {
  }

  // ---------------------------------------------------------------------------
  // Routing

  /**
    AdaptSQSMessageWithRouting: unwrap the SNS envelope, decode the alarm,
    route it and render it. Only the two decodes can fail; a missing
    AlarmName is not an error.
   */
  function AdaptSqsMessageWithRouting(
    body: string,
    decodeEnvelope: string -> Option<Envelope>,
    decodeAlarm: string -> Option<CloudWatchAlarm>,
    fmt: Formatting,
    channels: map<string, string>,
    alarmChannels: map<string, string>
  ): (r: Result<AlertMessage, AdaptError>)
    ensures decodeEnvelope(body).None? <==> r == Err(EnvelopeNotDecoded)
    ensures r == Err(AlarmNotDecoded) <==>
              decodeEnvelope(body).Some? && decodeAlarm(decodeEnvelope(body).value.message).None?
    ensures r.Ok? ==>
              var alarm := decodeAlarm(decodeEnvelope(body).value.message).value;
              && r.value.priority == DeterminePriority(alarm)
              && r.value.channel == Route(alarm.alarmName, DeterminePriority(alarm), channels, alarmChannels)
              && r.value.message == FormatSlackMessage(alarm, fmt)
  {
    match decodeEnvelope(body)
    case None => Err(EnvelopeNotDecoded)
    case Some(envelope) =>
      match decodeAlarm(envelope.message)
      case None => Err(AlarmNotDecoded)
      case Some(alarm) =>
        var explicit := Routing.Entry(alarmChannels, alarm.alarmName);
        var channel :=
          if explicit != "" then explicit
          else
            var byPriority := Routing.Entry(channels, Name(DeterminePriority(alarm)));
            if byPriority != "" then byPriority else Routing.Entry(channels, "default");
        Ok(AlertMessage(FormatSlackMessage(alarm, fmt), DeterminePriority(alarm), channel))
  }

  // ---------------------------------------------------------------------------
  // Rendering

  /** The emoji before the headline, chosen by the new state. */
  function StateEmoji(state: string): string {
    if state == "ALARM" then "\U{1F6A8}"
    else if state == "OK" then "\U{2705}"
    else if state == "INSUFFICIENT_DATA" then "\U{26A0}\U{FE0F}"
    else "\U{1F4CA}"
  }

  /** The coloured state badge shown for both the old and the new state. */
  function StateBadge(state: string): string {
    if state == "ALARM" then "`\U{1F534} ALARM`"
    else if state == "OK" then "`\U{1F7E2} OK`"
    else if state == "INSUFFICIENT_DATA" then "`\U{1F7E1} INSUFFICIENT_DATA`"
    else "`" + state + "`"
  }

  function DimensionLine(d: Dimension): string {
    "   \U{2192} " + d.name + ": " + d.value
  }

  /** formatDimensionsIndented: one arrow line per dimension, or a single "None" line. */
  function FormatDimensionsIndented(dims: seq<Dimension>): (r: string)
    ensures |dims| == 0 ==> r == "   \U{2192} None"
  {
    if |dims| == 0 then "   \U{2192} None"
    else Join(seq(|dims|, i requires 0 <= i < |dims| => DimensionLine(dims[i])), "\n")
  }

  predicate SingleLine(s: string) {
    '\n' !in s
  }

  /**
    For dimensions without line breaks the rendering has exactly one line per
    dimension, in input order, and nothing else.
   */
  lemma DimensionsOneLineEach(dims: seq<Dimension>)
    requires |dims| > 0
    requires forall i :: 0 <= i < |dims| ==> SingleLine(dims[i].name) && SingleLine(dims[i].value)
    ensures var lines := Split(FormatDimensionsIndented(dims), '\n');
            && |lines| == |dims|
            && forall i :: 0 <= i < |dims| ==> lines[i] == "   \U{2192} " + dims[i].name + ": " + dims[i].value
  {
    var parts := seq(|dims|, i requires 0 <= i < |dims| => DimensionLine(dims[i]));
    forall i | 0 <= i < |parts|
      ensures '\n' !in parts[i]
    {
      assert parts[i] == "   \U{2192} " + dims[i].name + ": " + dims[i].value;
    }
    SplitJoin(parts, '\n');
  }

  function Pad2(n: nat): string
    requires n < 100
  {
    [DigitChar(n / 10), DigitChar(n % 10)]
  }

  function Pad4(n: nat): string
    requires n < 10000
  {
    [DigitChar(n / 1000), DigitChar(n / 100 % 10), DigitChar(n / 10 % 10), DigitChar(n % 10)]
  }

  /** t.Format("2006-01-02 15:04:05 UTC"). */
  function RenderUtc(t: DateTime): string {
    Pad4(t.year) + "-" + Pad2(t.month) + "-" + Pad2(t.day) + " "
    + Pad2(t.hour) + ":" + Pad2(t.minute) + ":" + Pad2(t.second) + " UTC"
  }

  /**
    formatTimestamp: a timestamp in CloudWatch's layout is shown as a UTC
    date and time; anything the layout does not parse is shown unchanged.
   */
  function FormatTimestamp(timeStr: string, parseTime: string -> Option<DateTime>): (r: string)
    ensures parseTime(timeStr).None? ==> r == timeStr
    ensures parseTime(timeStr).Some? ==> |r| == 23 && r[19..] == " UTC"
  {
    match parseTime(timeStr)
    case None => timeStr
    case Some(t) => RenderUtc(t)
  }

  /** The displayed time reads back as the parsed one: the rendering loses nothing. */
  lemma RenderUtcReadsBack(t: DateTime)
    ensures var r := RenderUtc(t);
            && |r| == 23
            && AllDigits(r[0..4]) && AllDigits(r[5..7]) && AllDigits(r[8..10])
            && AllDigits(r[11..13]) && AllDigits(r[14..16]) && AllDigits(r[17..19])
            && DigitsValue(r[0..4]) == t.year && DigitsValue(r[5..7]) == t.month
            && DigitsValue(r[8..10]) == t.day && DigitsValue(r[11..13]) == t.hour
            && DigitsValue(r[14..16]) == t.minute && DigitsValue(r[17..19]) == t.second
  {
    var r := RenderUtc(t);
    assert r[0..4] == Pad4(t.year);
    assert r[5..7] == Pad2(t.month);
    assert r[8..10] == Pad2(t.day);
    assert r[11..13] == Pad2(t.hour);
    assert r[14..16] == Pad2(t.minute);
    assert r[17..19] == Pad2(t.second);
    Pad2Value(t.month);
    Pad2Value(t.day);
    Pad2Value(t.hour);
    Pad2Value(t.minute);
    Pad2Value(t.second);
    Pad4Value(t.year);
  }

  lemma Pad2Value(n: nat)
    requires n < 100
    ensures AllDigits(Pad2(n)) && DigitsValue(Pad2(n)) == n
  {
    var s := Pad2(n);
    DigitRoundTrip(n / 10);
    DigitRoundTrip(n % 10);
    assert DigitsValue(s[..1]) == n / 10 by {
      assert s[..1][..0] == [];
    }
  }

  lemma Pad4Value(n: nat)
    requires n < 10000
    ensures AllDigits(Pad4(n)) && DigitsValue(Pad4(n)) == n
  {
    var s := Pad4(n);
    DigitRoundTrip(n / 1000);
    DigitRoundTrip(n / 100 % 10);
    DigitRoundTrip(n / 10 % 10);
    DigitRoundTrip(n % 10);
    assert DigitsValue(s[..1]) == n / 1000 by {
      assert s[..1][..0] == [];
    }
    assert DigitsValue(s[..2]) == n / 100 by {
      assert s[..2][..1] == s[..1];
    }
    assert DigitsValue(s[..3]) == n / 10 by {
      assert s[..3][..2] == s[..2];
    }
  }

  /** Everything from the "From" line down to the "Region" line, each line ending in a line break. */
  function DetailLines(alarm: CloudWatchAlarm, fmt: Formatting): string {
    var t := alarm.trigger;
    "\U{2022} *From:* " + StateBadge(alarm.oldStateValue) + " \U{2192} *To:* " + StateBadge(alarm.newStateValue) + "\n"
    + "\U{2022} *Metric:* `" + t.namespace + "/" + t.metricName + "`\n"
    + "\U{2022} *Threshold:* `" + t.comparisonOperator + " " + fmt.oneDecimal(t.threshold) + "`\n"
    + "\U{2022} *Period:* `" + IntToString(t.period) + "s over " + IntToString(t.evaluationPeriods) + " evaluations`\n"
    + "\U{2022} *Dimensions:*\n" + FormatDimensionsIndented(t.dimensions) + "\n"
    + "\U{2022} *Region:* `" + alarm.region + "`\n"
  }

  /** The start of the headline, up to the marker before the alarm name. */
  function HeadlineStart(alarm: CloudWatchAlarm): string {
    StateEmoji(alarm.newStateValue) + " *"
  }

  /** The text above the "Reason" line. */
  function Head(alarm: CloudWatchAlarm, fmt: Formatting): string {
    HeadlineStart(alarm) + "CloudWatch Alarm: " + alarm.alarmName + "*\n" + DetailLines(alarm, fmt)
  }

  /** The text below the "Reason" line. */
  function TimeLine(alarm: CloudWatchAlarm, fmt: Formatting): string {
    "\n\U{2022} *Time:* `" + FormatTimestamp(alarm.stateChangeTime, fmt.parseTime) + "`"
  }

  /** formatSlackMessage. */
  function FormatSlackMessage(alarm: CloudWatchAlarm, fmt: Formatting): string {
    Head(alarm, fmt) + "\U{2022} *Reason:* " + alarm.newStateReason + TimeLine(alarm, fmt)
  }
}

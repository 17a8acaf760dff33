# Alert adapter and Slack callback core, in Dafny

This project models the two decision-and-rendering cores of a small alert
relay. The relay receives CloudWatch alarms (through SQS/SNS) and Grafana
webhooks, posts them to Slack with Acknowledge/Dismiss buttons, and answers
the button clicks.

- **Adaptation** (`internal/adapter/message_adapter.go`). There are three
  input shapes: a CloudWatch alarm inside an SNS envelope, a legacy Grafana
  webhook, and an Alertmanager-style Grafana webhook with an `alerts` list.
  Each becomes an `AlertMessage`: a priority P0/P1/P2, a destination channel
  and Slack-markup text.
- **Interactive callbacks** (`internal/server/server.go`). This covers:
  - Slack request authentication;
  - recovering the alert name and description from the text the adapter
    rendered earlier;
  - the acknowledge/dismiss reply text;
  - the order in which the handler turns failures into HTTP status codes.

Modules, one per file:

| file | module | contents |
|---|---|---|
| optional.dfy | Optional | `Option`, `Result` |
| strings.dfy | Strings | the subset of Go's `strings`/`strconv` used: `Contains`, ASCII `ToLower`/`ToUpper`, `TrimSpace`, `Join`, base-10 int64 parsing; also `Split`, which the modelled code never calls and which serves only in proofs as the inverse of `Join` |
| json.dfy | Json | decoded JSON: `Value = Str \| Obj \| Other`; Go maps as sequences of entries |
| library.dfy | Library | `DateTime` and the `Formatting` record of library formatters (float printing, `time.Parse`) |
| routing.dfy | Routing | `Priority`, the P0/P1/P2 tag switch, channel resolution |
| cloudwatch.dfy | CloudWatch | `determinePriority`, `AdaptSQSMessageWithRouting`, `formatSlackMessage` and its helpers |
| grafana.dfy | Grafana | the legacy webhook: `determineGrafanaPriority`, the legacy branch of `AdaptGrafanaWebhook`, `formatGrafanaSlackMessage` |
| alertmanager.dfy | Alertmanager | `adaptAlertmanagerWebhook`, the "no data" override, `formatEnhancedAlertMessage`, `formatBasicAlertMessage`, `formatAlertmanagerSlackMessage` |
| dispatch.dfy | Dispatch | `AdaptGrafanaWebhook`: the choice between the Alertmanager and legacy shapes |
| signature.dfy | Signature | `verifySlackRequest` |
| extraction.dfy | Extraction | `extractAlertInfo` and its regular-expression captures |
| interactive.dfy | Interactive | the payload, the block fallback, the reply text and `handleInteractive` |
| roundtrip.dfy | RoundTrip | extraction applied to rendered alerts gives back their name and description |

How library calls and I/O are modelled:

- JSON decoding, form parsing, float formatting, `time.Parse`, HMAC-SHA256,
  the clock and the POST to `response_url` are function-typed parameters or
  plain values.
- Webhook labels, annotations and tags are sequences (`seq<Pair>`,
  `seq<Field>`) searched front to back. The order of a sequence stands for one
  of the orders Go's randomised map iteration may produce.
- The channel routing tables (`channels`, `alarmChannels`) are Dafny
  `map<string, string>` values, because they are only looked up, never
  iterated.
- Regular expressions of the form `marker([^stops]+)` are modelled directly:
  - the leftmost position where the marker is followed by at least one
    allowed character;
  - then the longest run of allowed characters there.

## Model

| member | source | states |
|---|---|---|
| Routing.ParseTier | internal/adapter/message_adapter.go:356-365 | a tag maps to Pk exactly when its upper-cased form is "Pk"; every other tag maps to nothing; only two-character tags are recognised |
| Routing.ParseTierName | internal/adapter/message_adapter.go:401-408 | "P0"/"P1"/"P2" are recognised in upper and lower case |
| Routing.Route | internal/adapter/message_adapter.go:107-117 | resolution order: a non-empty explicit mapping for the key, else a non-empty `channels[priority]`, else `channels["default"]` |
| Routing.ExplicitMappingWins | internal/adapter/message_adapter.go:107-117 | a non-empty explicit mapping is the channel whatever the priority |
| Routing.RouteNonEmpty | internal/adapter/message_adapter.go:111-117 | when `channels["default"]` is non-empty (the configuration guarantees it), the channel is never empty and is one of the three candidates |
| CloudWatch.DeterminePriority | internal/adapter/message_adapter.go:129-163 | P0 iff the lower-cased name has prod/cpu/memory or the namespace has RDS/DynamoDB/ELB/5xx; P1 iff not P0 and the name has redis/elasticache; otherwise P2 |
| CloudWatch.ProdSubsumesProduction | internal/adapter/message_adapter.go:135-137 | the "production" test is implied by the "prod" test |
| CloudWatch.NamespaceIsCaseSensitive | internal/adapter/message_adapter.go:140-142 | namespace "AWS/RDS" gives P0 but "aws/rds" gives P2 |
| CloudWatch.AdaptSqsMessageWithRouting | internal/adapter/message_adapter.go:93-126 | errors exactly when either decode fails; otherwise the priority is `determinePriority`, the channel is routed by the alarm name and the text is the formatted alarm, even with an empty alarm name |
| CloudWatch.FormatDimensionsIndented | internal/adapter/message_adapter.go:223-225 | no dimensions render as the "None" line |
| CloudWatch.DimensionsOneLineEach | internal/adapter/message_adapter.go:227-231 | split at line breaks, the rendering gives exactly one `→ name: value` line per dimension, in input order |
| CloudWatch.FormatTimestamp | internal/adapter/message_adapter.go:234-243 | unparsable input comes back unchanged; parsed input becomes a 23-character text ending in " UTC" |
| CloudWatch.RenderUtcReadsBack | internal/adapter/message_adapter.go:242 | the rendered date and time read back, field by field, as the parsed values |
| Grafana.DetermineGrafanaPriority | internal/adapter/message_adapter.go:398-444 | a recognised `channel` tag decides; otherwise P0 iff rule name or title mention critical/prod/down, P1 iff not P0 and they mention high/error, else P2 |
| Grafana.ChannelTagWins | internal/adapter/message_adapter.go:399-409 | a `channel` tag equal to Pk in any case gives Pk whatever the keywords say |
| Grafana.UnknownTagFallsThrough | internal/adapter/message_adapter.go:400-411 | an unrecognised `channel` tag gives the same priority as no tags at all |
| Grafana.AdaptLegacy | internal/adapter/message_adapter.go:265-283 | the legacy path: priority from the legacy heuristics, channel routed by the rule name, text from the legacy formatter |
| Grafana.ShownLabels | internal/adapter/message_adapter.go:510-518 | a label is listed iff it is a tag whose key is not `channel` and whose value is non-empty |
| Grafana.ValueText | internal/adapter/message_adapter.go:488-491 | a metric value is printed with `%.0f` when it is whole and in the int64 range, and with `%.2f` when it has a fractional part or lies outside that range |
| Grafana.ShownTags | internal/adapter/message_adapter.go:494-502 | an eval-match tag is listed iff its key is not `__name__`, `job` or `instance` |
| Grafana.Sections | internal/adapter/message_adapter.go:473-527 | every line after the headline is one of the five kinds built from the alert; the label line never shows `channel` or an empty value; the metrics part has one entry per eval match, in order, with its metric and value and exactly its tags other than `__name__`, `job` and `instance` |
| Grafana.SectionsPresence | internal/adapter/message_adapter.go:473-527 | Rule iff the rule name is non-empty and differs from the title; Description iff the message is non-empty; Metrics iff there are eval matches; Labels iff some tag is shown; Dashboard iff the rule URL is non-empty |
| Alertmanager.CommonOrFirstLabel | internal/adapter/message_adapter.go:294-309 | the `channel` tag (and, by the same rule at lines 577-586, the headline `alertname`) is the common label when non-empty, else the first alert's string label, else empty |
| Alertmanager.ScanNoData | internal/adapter/message_adapter.go:320-350 | the scan finds "no data" iff some alert's string alertname label or string description annotation mentions nodata/no data/data source |
| Alertmanager.AlertmanagerPriority | internal/adapter/message_adapter.go:314-369 | the "no data" override gives P1; otherwise a recognised channel tag decides, and an unknown or absent one gives P2 |
| Alertmanager.NoDataIgnoresTag | internal/adapter/message_adapter.go:317-354 | under the override, changing the common labels (and so the channel tag) leaves the priority at P1 |
| Alertmanager.NoDataNeedsFiring | internal/adapter/message_adapter.go:318 | a status other than FIRING (in any case) disables the override |
| Alertmanager.AdaptAlertmanagerWebhook | internal/adapter/message_adapter.go:374-395 | priority as above; the explicit-mapping key is `commonLabels["alertname"]`; the text is the enhanced rendering |
| Alertmanager.HeaderNameNotUsedForRouting | internal/adapter/message_adapter.go:375-389 | without a common alertname, and with no non-empty `alarmChannels` entry for the empty name, routing goes by priority even when the first alert has its own alertname |
| Alertmanager.SummaryOnlyWithoutDescription | internal/adapter/message_adapter.go:594-604 | `summary` is shown only when the `description` key is absent; an empty or non-string description suppresses both |
| Alertmanager.ReplaceUnderscores | internal/adapter/message_adapter.go:615 | every underscore becomes a space and nothing else changes |
| Alertmanager.CapitalizeShape | internal/adapter/message_adapter.go:614-618 | a formatted heading keeps its length, has no underscores, upper-cases the key's first character (an underscore there becoming a space) and agrees with the key after it |
| Alertmanager.OtherAnnotations | internal/adapter/message_adapter.go:606-621 | there is a line for exactly the non-empty string annotations other than description and summary |
| Alertmanager.DashboardLinkPresence | internal/adapter/message_adapter.go:647-656 | the dashboard link appears iff the first alert's string dashboardURL is non-empty and differs from its generatorURL |
| Alertmanager.BasicIsEnhancedFiltered | internal/adapter/message_adapter.go:661-721 | the basic rendering's lines are the enhanced lines filtered to Description and generator links |
| Alertmanager.FormatEnhancedAlertMessage | internal/adapter/message_adapter.go:555-590 | the enhanced text starts with its non-empty headline |
| Alertmanager.FormatAlertmanagerSlackMessage | internal/adapter/message_adapter.go:546-552 | the basic fallback is never taken: the result is always the enhanced text |
| Dispatch.AdaptGrafanaWebhook | internal/adapter/message_adapter.go:245-263 | the Alertmanager path runs exactly when the body decodes with a non-empty `alerts`; otherwise the legacy path runs, and a failed legacy decode is the only error |
| Dispatch.EmptyAlertsFallBack | internal/adapter/message_adapter.go:255 | a decoded body with an empty `alerts` list is handled as if the Alertmanager decode had failed |
| Signature.Hex | internal/server/server.go:240 | two lowercase hex digits per byte, high nibble first |
| Signature.HexInjective | internal/server/server.go:240 | different byte strings have different hex encodings |
| Signature.BaseStringInjective | internal/server/server.go:237 | for a fixed timestamp, different bodies give different signed texts |
| Signature.VerifySlackRequest | internal/server/server.go:213-248 | accepted iff both headers are non-empty, the timestamp parses as a base-10 int64, it is at most 300 s in the past, and the signature equals the expected one |
| Signature.GenuineRequestAccepted | internal/server/server.go:224-247 | a request signed as Slack signs it, within the age limit, is accepted |
| Signature.FutureIsNotStale | internal/server/server.go:230-235 | the age check is one-sided: a timestamp in the future passes it |
| Signature.StaleRejected | internal/server/server.go:230-235 | any request whose timestamp is more than 300 s before the clock is rejected, whatever its signature |
| Signature.TamperedBodyNeedsCollision | internal/server/server.go:237-247 | a signature made for one body is accepted for another only if the HMAC collides on two different signed texts |
| Signature.WrapInt64 | internal/server/server.go:230 | int64 subtraction: the result is in range, congruent modulo 2^64, and exact when no overflow happens |
| Signature.VerifySlackRequestAsWritten | internal/server/server.go:213-248 | the check with the age computed as a wrapping int64 subtraction |
| Signature.AsWrittenAgreesWithoutOverflow | internal/server/server.go:230-235 | when the age does not overflow, the wrapped check and the intended check agree |
| Signature.AncientTimestampPassesAsWritten | internal/server/server.go:224-235 | a correctly signed request with timestamp -9223372036854775808 passes the wrapped check but fails the intended one |
| Strings.ParseInt64 | internal/server/server.go:224 | a parsed timestamp lies in the int64 range and comes from non-empty text |
| Strings.ParseInt64Accepts | internal/server/server.go:224 | an optional `+` or `-` followed by one or more digits parses to its signed decimal value, or fails when that is outside the int64 range |
| Strings.ParseInt64Rejects | internal/server/server.go:224 | the empty text, a lone sign, and any text with a character other than a digit or a leading sign fail to parse |
| Strings.ParseIntToString | internal/server/server.go:224 | every int64 written in decimal parses back to itself |
| Extraction.Run | internal/server/server.go:278 | the captured run is a prefix with no stop character, ending at a stop or at the end of the text |
| Extraction.FindCapture | internal/server/server.go:278-282 | there is no capture iff no position holds the marker followed by an allowed character; a capture is non-empty and stop-free |
| Extraction.ExtractAlertInfo | internal/server/server.go:272-307 | text with neither marker gives an empty name and description; the name never holds `*` or a line break and is already trimmed |
| Extraction.GrafanaTextInfo | internal/server/server.go:276-289 | text with the Grafana marker is read with the Grafana patterns, even if it also has the CloudWatch marker |
| Extraction.CloudWatchTextInfo | internal/server/server.go:275-303 | text without the Grafana marker but with the CloudWatch marker is read with the CloudWatch name and Reason patterns |
| Extraction.CaptureAfterFreshStart | internal/server/server.go:278-282 | in text whose prefix lacks the marker's first character, the capture is the run that follows the marker |
| Extraction.CaptureAfterClosedPrefix | internal/server/server.go:285-289 | in text whose prefix does not contain the marker and ends outside it, the capture is the line that follows the marker |
| RoundTrip.CloudWatchMarkerPresent | internal/adapter/message_adapter.go:196 | every rendered alarm carries the CloudWatch marker |
| RoundTrip.CloudWatchNameRoundTrip | internal/server/server.go:290-296 | the name extracted from a rendered alarm is its trimmed alarm name |
| RoundTrip.CloudWatchReasonRoundTrip | internal/server/server.go:298-303 | the description extracted from a rendered alarm is its trimmed state reason |
| RoundTrip.GrafanaMarkerPresent | internal/adapter/message_adapter.go:468-469 | every Grafana headline carries the Grafana marker |
| RoundTrip.HeadlineNameRoundTrip | internal/server/server.go:276-282 | the name extracted from a Grafana headline is the trimmed name in it |
| RoundTrip.DescriptionRoundTrip | internal/server/server.go:284-289 | the description extracted from Grafana text with a Description line is that line's trimmed text |
| RoundTrip.GrafanaNameRoundTrip | internal/server/server.go:276-282 | the name extracted from a rendered legacy webhook is its trimmed title |
| RoundTrip.LegacyShape | internal/adapter/message_adapter.go:474-481 | a legacy rendering with a message is the text above, the Description line, then the later lines |
| RoundTrip.GrafanaDescriptionRoundTrip | internal/server/server.go:284-289 | the description extracted from a rendered legacy webhook is its trimmed message |
| RoundTrip.AlertmanagerNameRoundTrip | internal/server/server.go:276-282 | the name extracted from an Alertmanager-style rendering is its trimmed headline name |
| RoundTrip.EnhancedShape | internal/adapter/message_adapter.go:588-604 | when the first alert has a description (or summary), the Description line directly follows the headline |
| RoundTrip.AlertmanagerDescriptionRoundTrip | internal/server/server.go:284-289 | the description extracted from an Alertmanager-style rendering is the first alert's trimmed description or summary |
| RoundTrip.ClickedCloudWatchAlarmIsNamed | internal/server/server.go:150-171 | a click on a posted CloudWatch alarm is answered with the trimmed alarm name, quoted, in the first line |
| Interactive.FallBackFirstNamed | internal/server/server.go:153-160 | the block loop returns the first section info with a name, or ends with no name only when no section has one |
| Interactive.AlertInfoIsFirstNamed | internal/server/server.go:150-161 | the shown alert is the first named info among the message text and then the section blocks, in order |
| Interactive.KnownActionsAreTheNotifierButtons | internal/server/server.go:164-190 | a reply starts with "Unknown action: " exactly for ids other than the notifier's two buttons, and is then that prefix plus the id |
| Interactive.ReplyWithName | internal/server/server.go:165-182 | with a name, the reply is the first line (mark, quoted name, verb, user), then the Description line exactly when the description is non-empty, then the action's closing sentence |
| Interactive.ReplyWithoutName | internal/server/server.go:172-185 | without a name the description is ignored and the first line names the button value instead |
| Interactive.HandleInteractive | internal/server/server.go:81-208 | 405 iff not POST; 401 iff a POST whose body was read fails verification; 400 iff a POST whose body could not be read, or an authentic one whose form, payload field, payload JSON or action list is missing; 200 only after verification, form parsing and payload decoding succeed; 200 or 500 follows the `response_url` delivery |
| Interactive.StatusCodes | internal/server/server.go:81-208 | the handler answers only 200, 400, 401, 405 or 500 |
| Interactive.UnauthorizedBeforeParsing | internal/server/server.go:97-111 | whether 401 is returned does not depend on the form parser, the payload decoder or delivery |
| Interactive.ReplyOnlyWhenAuthentic | internal/server/server.go:97-120 | a reply is produced only for an authenticated POST with a non-empty payload field |

## Left out

- JSON decoding, URL-form parsing, HMAC-SHA256 and `time.Parse` are library calls. They are function parameters, so decoding errors are just "no value". `hmac.Equal` is plain equality.
- Float formatting (`%.1f`, `%.2f`, `%.0f`) is a parameter (`Library.Formatting`).
- `float64` values are Dafny `real`s, so rounding, NaN and the infinities are not modelled.
- The whole-number test `v == float64(int64(v))` is the concrete predicate `Library.IsWhole`. It holds for a whole value in the int64 range. Go leaves an out-of-range conversion to the platform. The model follows amd64, where such a value converts to the minimum int64 and the test fails. On arm64 the conversion saturates, so exactly 2^63 would pass; that case is not modelled.
- `time.Now` is the parameter `now`. The `response_url` POST and its status check are one boolean-valued parameter.
- Go's map iteration order is random. Maps are sequences, and the properties speak of which lines and labels appear, not their order.
- Strings are sequences of characters, not bytes. `ToLower`/`ToUpper` map ASCII letters only, so non-ASCII case folding is not modelled.
- Alertmanager.CapitalizeShape: upper-casing a first byte that starts a multi-byte UTF-8 character is not modelled. The first character is upper-cased as one character.
- Debug `Printf`/`log.Printf` output and the `panic`/`recover` wrapper of `formatAlertmanagerSlackMessage` are not modelled. No modelled function can panic.
- The unused `AdaptSQSMessage`, `formatValueString`, `parseFloat` and `extractPodNames` are not modelled, and neither is the one-line `extractAlarmName` wrapper.
- Not part of this model:
  - `internal/sqs/poller.go`, `main.go`, `notifier/slack_notifier.go` and `adapter/sns_adapter.go`;
  - `handleGrafanaWebhook`, the health check and HTTP serving;
  - `internal/config/config.go`, except its guarantee of a `default` channel, which Routing.RouteNonEmpty takes as a precondition.
- A body that cannot be read gives 400 in the source. Here it is a request whose `body` is `None`.
- Signature.VerifySlackRequest: computes the age `now - ts` on unbounded integers, not with Go's wrapping int64 subtraction at internal/server/server.go:230, and Interactive.HandleInteractive inherits this. The as-written form is Signature.VerifySlackRequestAsWritten, and the two agree whenever the subtraction does not overflow (Signature.AsWrittenAgreesWithoutOverflow). See "## Findings".
- Routing.Route: does not require a `default` channel. Without one, the result can be the empty string, as in Go.
- RoundTrip.CloudWatchReasonRoundTrip: also requires that the text above the Reason line does not spell the Reason marker. Region, dimension or metric text could spell it, and the leftmost match would then be taken there.
- RoundTrip.GrafanaDescriptionRoundTrip: also requires that the text above the Description line does not spell the Description marker. A rule name could spell it.
- RoundTrip.AlertmanagerDescriptionRoundTrip: also requires that the headline does not spell the Description marker. The alert name could spell it.
- RoundTrip.CloudWatchNameRoundTrip: requires that the rendered text lacks the Grafana marker, because extraction tries Grafana first.
- RoundTrip.HeadlineNameRoundTrip: requires a non-empty name without `*` or line breaks, which is what the capture class can reproduce.

## Findings

| source | as written | input that shows it | evidently intended | confidence | as-written member | corrected member |
|---|---|---|---|---|---|---|
| internal/server/server.go:230-235 | the age `time.Now().Unix() - ts` is an int64 subtraction compared with 300 | timestamp header "-9223372036854775808" with a matching signature at clock 1700000000: the subtraction wraps to a negative age and the request passes the age check | reject every request whose timestamp is more than 300 seconds in the past | not executed | Signature.AncientTimestampPassesAsWritten | Signature.StaleRejected |

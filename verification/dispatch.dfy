/**
  AdaptGrafanaWebhook: choosing between the Alertmanager-style and the
  legacy Grafana webhook (internal/adapter/message_adapter.go).

  JSON decoding is not modelled: each decoder is a function from the raw body
  to the decoded webhook, None when decoding fails.
 */
module Dispatch {

  import opened Optional
  import opened Library
  import opened Routing
  import Grafana
  import Alertmanager

  datatype Decoders = Decoders(
    alertmanager: string -> Option<Alertmanager.AlertmanagerWebhook>,
    legacy: string -> Option<Grafana.GrafanaWebhook>
  )

  /** The only failure: the body is not a legacy webhook either. */
  datatype DispatchError = LegacyNotDecoded

  /** The body decodes as an Alertmanager-style webhook with at least one alert. */
  predicate TakesAlertmanagerPath(body: string, decoders: Decoders) {
    decoders.alertmanager(body).Some? && |decoders.alertmanager(body).value.alerts| > 0
  }

  function AdaptGrafanaWebhook(body: string, decoders: Decoders, fmt: Formatting,
                               channels: map<string, string>, alarmChannels: map<string, string>)
    : (r: Result<AlertMessage, DispatchError>)
    ensures TakesAlertmanagerPath(body, decoders) ==>
              r == Ok(Alertmanager.AdaptAlertmanagerWebhook(decoders.alertmanager(body).value, channels, alarmChannels))
    ensures !TakesAlertmanagerPath(body, decoders) && decoders.legacy(body).Some? ==>
              r == Ok(Grafana.AdaptLegacy(decoders.legacy(body).value, fmt, channels, alarmChannels))
    ensures r.Err? <==> !TakesAlertmanagerPath(body, decoders) && decoders.legacy(body).None?
  {
    var modern := decoders.alertmanager(body);
    if modern.Some? && |modern.value.alerts| > 0 then
      Ok(Alertmanager.AdaptAlertmanagerWebhook(modern.value, channels, alarmChannels))
    else
      match decoders.legacy(body)
      case None => Err(LegacyNotDecoded)
      case Some(alert) => Ok(Grafana.AdaptLegacy(alert, fmt, channels, alarmChannels))
  }

  /**
    An Alertmanager-style body with an empty `alerts` list is read again as a
    legacy webhook: the two decodings of the same body give the same result
    as the legacy decoding alone.
   */
  lemma EmptyAlertsFallBack(body: string, decoders: Decoders, fmt: Formatting,
                            channels: map<string, string>, alarmChannels: map<string, string>)
    requires decoders.alertmanager(body).Some? && decoders.alertmanager(body).value.alerts == []
    ensures AdaptGrafanaWebhook(body, decoders, fmt, channels, alarmChannels)
         == AdaptGrafanaWebhook(body, decoders.(alertmanager := _ => None), fmt, channels, alarmChannels)
  {
  }
}

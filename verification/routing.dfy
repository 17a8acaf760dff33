/**
  Priorities and channel routing, shared by the three alert adapters.

  The routing tables are `map[string]string` values that are only looked up,
  never iterated, so Dafny maps model them directly: `channels` is keyed by
  "P0", "P1", "P2" and "default"; `alarmChannels` by alert name.
 */
module Routing {

  import opened Optional
  import opened Strings

  datatype Priority = P0 | P1 | P2

  /** The string the Go code uses for a priority, also its `channels` key. */
  function Name(p: Priority): string {
    match p
    case P0 => "P0"
    case P1 => "P1"
    case P2 => "P2"
  }

  /**
    The case-insensitive `switch strings.ToUpper(tag)` on "P0", "P1", "P2"
    used for channel tags; any other tag is not a priority.
   */
  function ParseTier(tag: string): (r: Option<Priority>)
    ensures r.Some? ==> ToUpper(tag) == Name(r.value)
    ensures r.None? ==> forall p :: ToUpper(tag) != Name(p)
    ensures r.Some? ==> |tag| == 2
  {
    var t := ToUpper(tag);
    if t == "P0" then Some(P0)
    else if t == "P1" then Some(P1)
    else if t == "P2" then Some(P2)
    else None
  }

  /** A priority's name parses back to it, in either case. */
  lemma ParseTierName(p: Priority)
    ensures ParseTier(Name(p)) == Some(p)
    ensures ParseTier(ToLower(Name(p))) == Some(p)
  {
    var n := Name(p);
    assert ToUpper(n)[0] == n[0] && ToUpper(n)[1] == n[1];
    assert ToUpper(n) == n;
    ToUpperOfLower(n);
  }

  /** `m[key]` without ", ok": the empty string when absent. */
  function Entry(m: map<string, string>, key: string): string {
    if key in m then m[key] else ""
  }

  /** How a channel was chosen (diagnostic only). */
  datatype MatchedBy = ExplicitMapping | PriorityChannel | DefaultChannel

  /**
    The three-step lookup used on every path: a non-empty entry for the alert
    in `alarmChannels` wins; otherwise the priority's channel; otherwise the
    "default" channel.
   */
  function Resolve(key: string, p: Priority, channels: map<string, string>,
                   alarmChannels: map<string, string>): MatchedBy
  {
    if Entry(alarmChannels, key) != "" then ExplicitMapping
    else if Entry(channels, Name(p)) != "" then PriorityChannel
    else DefaultChannel
  }

  function Route(key: string, p: Priority, channels: map<string, string>,
                 alarmChannels: map<string, string>): (c: string)
    ensures Resolve(key, p, channels, alarmChannels) == ExplicitMapping ==> c == alarmChannels[key]
    ensures Resolve(key, p, channels, alarmChannels) == PriorityChannel ==> c == channels[Name(p)]
    ensures Resolve(key, p, channels, alarmChannels) == DefaultChannel ==> c == Entry(channels, "default")
  {
    var explicit := Entry(alarmChannels, key);
    if explicit != "" then explicit
    else
      var byPriority := Entry(channels, Name(p));
      if byPriority != "" then byPriority else Entry(channels, "default")
  }

  /** A non-empty explicit mapping wins whatever the priority. */
  lemma ExplicitMappingWins(key: string, p: Priority, q: Priority,
                            channels: map<string, string>, alarmChannels: map<string, string>)
    requires key in alarmChannels && alarmChannels[key] != ""
    ensures Route(key, p, channels, alarmChannels) == alarmChannels[key]
    ensures Route(key, p, channels, alarmChannels) == Route(key, q, channels, alarmChannels)
  {
  }

  /**
    With the configuration's guarantee of a non-empty "default" channel,
    routing always yields a channel, and it is one of the three candidates.
   */
  lemma RouteNonEmpty(key: string, p: Priority, channels: map<string, string>,
                      alarmChannels: map<string, string>)
    requires "default" in channels && channels["default"] != ""
    ensures var c := Route(key, p, channels, alarmChannels);
            && c != ""
            && (c == Entry(alarmChannels, key) || c == Entry(channels, Name(p)) || c == channels["default"])
  {
  }

  /** What every adapter returns: the Slack text, its priority and its destination channel. */
  datatype AlertMessage = AlertMessage(message: string, priority: Priority, channel: string)
}

/**
  The interactive callback of the Slack buttons (handleInteractive,
  internal/server/server.go): which alert the clicked message was about, the
  reply text, and the order in which failures become HTTP status codes.

  Reading the body, form parsing, JSON decoding and the POST to
  response_url are not modelled: they are function parameters.
 */
module Interactive {

  import opened Optional
  import opened Strings
  import opened Extraction
  import Signature

  datatype Action = Action(actionId: string, value: string)

  datatype Block = Block(blockType: string, text: string)

  /** The decoded interaction payload (only the fields the handler reads). */
  datatype SlackPayload = SlackPayload(
    payloadType: string,
    actions: seq<Action>,
    userName: string,
    responseUrl: string,
    messageText: string,
    blocks: seq<Block>
  )

  // ---------------------------------------------------------------------------
  // Which alert

  /** What extractAlertInfo makes of each section block, in block order. */
  function SectionInfos(blocks: seq<Block>): (r: seq<AlertInfo>)
    ensures |r| <= |blocks|
    decreases |blocks|
  {
    if |blocks| == 0 then []
    else
      (if blocks[0].blockType == "section" then [ExtractAlertInfo(blocks[0].text)] else [])
      + SectionInfos(blocks[1..])
  }

  /**
    The fallback loop over the section blocks: each one replaces the info,
    and a name stops the loop (so with no name at all the last section
    block's info is kept).
   */
  function FallBack(info: AlertInfo, infos: seq<AlertInfo>): AlertInfo
    decreases |infos|
  {
    if |infos| == 0 then info
    else if infos[0].name != "" then infos[0]
    else FallBack(infos[0], infos[1..])
  }

  /** Everything the handler extracts, in the order it looks: the message text, then the section blocks. */
  function Candidates(p: SlackPayload): (r: seq<AlertInfo>)
    ensures |r| > 0 && r[0] == ExtractAlertInfo(p.messageText)
  {
    [ExtractAlertInfo(p.messageText)] + SectionInfos(p.blocks)
  }

  /** The alert the handler shows in its reply. */
  function AlertInfoOf(p: SlackPayload): AlertInfo {
    var info := ExtractAlertInfo(p.messageText);
    if info.name == "" then FallBack(info, SectionInfos(p.blocks)) else info
  }

  /** Position `i` holds the first info with a name. */
  ghost predicate FirstNamed(infos: seq<AlertInfo>, i: int) {
    && 0 <= i < |infos|
    && infos[i].name != ""
    && forall j :: 0 <= j < i ==> infos[j].name == ""
  }

  lemma {:induction false} FallBackFirstNamed(info: AlertInfo, infos: seq<AlertInfo>)
    requires info.name == ""
    ensures var r := FallBack(info, infos);
            && (r.name != "" ==> exists i :: FirstNamed(infos, i) && r == infos[i])
            && (r.name == "" ==> forall i :: 0 <= i < |infos| ==> infos[i].name == "")
    decreases |infos|
  {
    if |infos| > 0 {
      if infos[0].name != "" {
        assert FirstNamed(infos, 0);
      } else {
        FallBackFirstNamed(infos[0], infos[1..]);
        var r := FallBack(infos[0], infos[1..]);
        if r.name != "" {
          var i :| FirstNamed(infos[1..], i) && r == infos[1..][i];
          assert FirstNamed(infos, i + 1);
        }
      }
    }
  }

  /** The handler's choice over the candidates: the first if it has a name, else the block loop. */
  function Pick(infos: seq<AlertInfo>): AlertInfo
    requires |infos| > 0
  {
    if infos[0].name == "" then FallBack(infos[0], infos[1..]) else infos[0]
  }

  lemma PickFirstNamed(infos: seq<AlertInfo>)
    requires |infos| > 0
    ensures Pick(infos).name != "" ==> exists i :: FirstNamed(infos, i) && Pick(infos) == infos[i]
    ensures Pick(infos).name == "" ==> forall i :: 0 <= i < |infos| ==> infos[i].name == ""
  {
    var info := infos[0];
    if info.name != "" {
      assert FirstNamed(infos, 0);
    } else {
      FallBackFirstNamed(info, infos[1..]);
      var r := FallBack(info, infos[1..]);
      if r.name != "" {
        var i :| FirstNamed(infos[1..], i) && r == infos[1..][i];
        assert FirstNamed(infos, i + 1);
      }
    }
  }

  /**
    The handler's alert is the first extracted info that has a name, looking
    at the message text and then at the section blocks in order; when none
    has a name, the name is empty.
   */
  lemma AlertInfoIsFirstNamed(p: SlackPayload)
    ensures AlertInfoOf(p).name != "" ==>
              exists i :: FirstNamed(Candidates(p), i) && AlertInfoOf(p) == Candidates(p)[i]
    ensures AlertInfoOf(p).name == "" ==>
              forall i :: 0 <= i < |Candidates(p)| ==> Candidates(p)[i].name == ""
  {
    var infos := Candidates(p);
    assert infos[1..] == SectionInfos(p.blocks);
    assert AlertInfoOf(p) == Pick(infos);
    PickFirstNamed(infos);
  }

  // ---------------------------------------------------------------------------
  // Reply

  /** The button ids the notifier attaches to every alert. */
  const NotifierActionIds: seq<string> := ["acknowledge", "dismiss"]

  const AcknowledgeClosing := "\n\n_This alert is now being handled._"
  const DismissClosing := "\n\n_This alert has been dismissed and will not be actioned._"

  function DescriptionLine(info: AlertInfo): string {
    if info.description != "" then "\n\U{2022} *Description:* " + info.description else ""
  }

  /** The bold first line of a known action's reply. */
  function Head(mark: string, subject: string, verb: string, user: string): string {
    mark + " **Alert " + subject + " " + verb + " by " + user + "**"
  }

  /**
    The opening of a known action's reply: the alert's quoted name and its
    description line when a name was found, otherwise the button's value.
   */
  function Opening(mark: string, verb: string, alertId: string, user: string, info: AlertInfo): string {
    if info.name != "" then Head(mark, "'" + info.name + "'", verb, user) + DescriptionLine(info)
    else Head(mark, alertId, verb, user)
  }

  /** The reply text for a click. */
  function ReplyText(actionId: string, alertId: string, user: string, info: AlertInfo): string {
    if actionId == "acknowledge" then Opening("\U{2705}", "acknowledged", alertId, user, info) + AcknowledgeClosing
    else if actionId == "dismiss" then Opening("\U{274C}", "dismissed", alertId, user, info) + DismissClosing
    else "Unknown action: " + actionId
  }

  /**
    Exactly the notifier's two buttons get a known reply: each other id gets
    "Unknown action: <id>", and a known reply never starts that way.
   */
  lemma KnownActionsAreTheNotifierButtons(actionId: string, alertId: string, user: string, info: AlertInfo)
    ensures IsPrefix("Unknown action: ", ReplyText(actionId, alertId, user, info)) <==> actionId !in NotifierActionIds
    ensures actionId !in NotifierActionIds ==> ReplyText(actionId, alertId, user, info) == "Unknown action: " + actionId
  {
    var r := ReplyText(actionId, alertId, user, info);
    if actionId == "acknowledge" || actionId == "dismiss" {
      assert r[0] != 'U';
    }
  }

  predicate IsSuffix(suffix: string, s: string) {
    |suffix| <= |s| && s[|s| - |suffix|..] == suffix
  }

  lemma Framed(head: string, middle: string, closing: string)
    ensures IsPrefix(head, head + middle + closing)
    ensures IsSuffix(closing, head + middle + closing)
    ensures middle != "" ==> Contains(head + middle + closing, middle)
  {
    if middle != "" {
      ContainsMiddle(head, middle, closing);
    }
  }

  /**
    With a name, a known action's reply opens with the quoted name and the
    user, carries the description line when there is a description, and
    closes with the action's fixed sentence.
   */
  lemma ReplyWithName(actionId: string, alertId: string, user: string, info: AlertInfo)
    requires info.name != ""
    requires actionId in NotifierActionIds
    ensures var r := ReplyText(actionId, alertId, user, info);
            var acknowledged := actionId == "acknowledge";
            && IsPrefix(Head(if acknowledged then "\U{2705}" else "\U{274C}", "'" + info.name + "'",
                             if acknowledged then "acknowledged" else "dismissed", user), r)
            && IsSuffix(if acknowledged then AcknowledgeClosing else DismissClosing, r)
            && (info.description != "" ==> Contains(r, "\n\U{2022} *Description:* " + info.description))
            && r == Head(if acknowledged then "\U{2705}" else "\U{274C}", "'" + info.name + "'",
                         if acknowledged then "acknowledged" else "dismissed", user)
                    + (if info.description == "" then "" else "\n\U{2022} *Description:* " + info.description)
                    + (if acknowledged then AcknowledgeClosing else DismissClosing)
  {
    var acknowledged := actionId == "acknowledge";
    var head := Head(if acknowledged then "\U{2705}" else "\U{274C}", "'" + info.name + "'",
                     if acknowledged then "acknowledged" else "dismissed", user);
    Framed(head, DescriptionLine(info), if acknowledged then AcknowledgeClosing else DismissClosing);
  }

  /**
    Without a name the reply shows the button's value, and a description
    found on the way is not shown.
   */
  lemma ReplyWithoutName(actionId: string, alertId: string, user: string, info: AlertInfo)
    requires info.name == ""
    ensures ReplyText(actionId, alertId, user, info) == ReplyText(actionId, alertId, user, AlertInfo("", ""))
    ensures actionId in NotifierActionIds ==>
              IsPrefix(Head(if actionId == "acknowledge" then "\U{2705}" else "\U{274C}", alertId,
                            if actionId == "acknowledge" then "acknowledged" else "dismissed", user),
                       ReplyText(actionId, alertId, user, info))
  {
  }

  // ---------------------------------------------------------------------------
  // The handler

  /** A form field with all its values, as url.ParseQuery returns them. */
  datatype FormField = FormField(key: string, values: seq<string>)

  /** `url.Values.Get`: the first value of the first entry with the key, else "". */
  function FormGet(form: seq<FormField>, key: string): string
    decreases |form|
  {
    if |form| == 0 then ""
    else if form[0].key == key then (if |form[0].values| > 0 then form[0].values[0] else "")
    else FormGet(form[1..], key)
  }

  /** The incoming request; a body that could not be read is None. */
  datatype Request = Request(httpMethod: string, timestamp: string, signature: string, body: Option<string>)

  /** What the handler needs from outside: the library calls it makes and the clock. */
  datatype Environment = Environment(
    secret: string,
    now: int,
    hmac: (string, string) -> seq<Signature.Byte>,
    parseForm: string -> Option<seq<FormField>>,
    decodePayload: string -> Option<SlackPayload>,
    /** POST of the reply text to response_url; false when that fails */
    respond: (string, string) -> bool
  )

  datatype Response = Response(status: int, reply: Option<string>)

  const StatusOk := 200
  const StatusBadRequest := 400
  const StatusUnauthorized := 401
  const StatusMethodNotAllowed := 405
  const StatusInternalServerError := 500

  /** The reply for a decoded payload with at least one action. */
  function ReplyFor(p: SlackPayload): string
    requires |p.actions| > 0
  {
    ReplyText(p.actions[0].actionId, p.actions[0].value, p.userName, AlertInfoOf(p))
  }

  predicate Authentic(req: Request, env: Environment)
    requires req.body.Some?
  {
    Signature.VerifySlackRequest(env.secret, req.timestamp, req.signature, req.body.value, env.now, env.hmac)
  }

  /** The body parses as a form whose payload field decodes to a payload with an action. */
  predicate Actionable(req: Request, env: Environment)
    requires req.body.Some?
  {
    && env.parseForm(req.body.value).Some?
    && var payloadText := FormGet(env.parseForm(req.body.value).value, "payload");
       && payloadText != ""
       && env.decodePayload(payloadText).Some?
       && |env.decodePayload(payloadText).value.actions| > 0
  }

  /** handleInteractive: each failure answers at once, in this order. */
  function HandleInteractive(req: Request, env: Environment): (r: Response)
    ensures r.status == StatusMethodNotAllowed <==> req.httpMethod != "POST"
    ensures r.status == StatusUnauthorized <==> req.httpMethod == "POST" && req.body.Some? && !Authentic(req, env)
    ensures r.status == StatusBadRequest <==>
              req.httpMethod == "POST" && (req.body.None? || (Authentic(req, env) && !Actionable(req, env)))
    ensures r.status == StatusOk ==>
              && req.httpMethod == "POST" && req.body.Some? && Authentic(req, env)
              && env.parseForm(req.body.value).Some?
              && env.decodePayload(FormGet(env.parseForm(req.body.value).value, "payload")).Some?
    ensures req.httpMethod == "POST" && req.body.Some? && Authentic(req, env) && Actionable(req, env) ==>
              r.reply.Some?
    ensures r.reply.Some? ==>
              && req.body.Some?
              && env.parseForm(req.body.value).Some?
              && env.decodePayload(FormGet(env.parseForm(req.body.value).value, "payload")).Some?
              && var p := env.decodePayload(FormGet(env.parseForm(req.body.value).value, "payload")).value;
                 && |p.actions| > 0 && r.reply.value == ReplyFor(p)
                 && (r.status == StatusOk <==> env.respond(p.responseUrl, r.reply.value))
                 && (r.status == StatusInternalServerError <==> !env.respond(p.responseUrl, r.reply.value))
  {
    if req.httpMethod != "POST" then Response(StatusMethodNotAllowed, None)
    else if req.body.None? then Response(StatusBadRequest, None)
    else
      var body := req.body.value;
      if !Signature.VerifySlackRequest(env.secret, req.timestamp, req.signature, body, env.now, env.hmac) then
        Response(StatusUnauthorized, None)
      else
        match env.parseForm(body)
        case None => Response(StatusBadRequest, None)
        case Some(form) =>
          var payloadText := FormGet(form, "payload");
          if payloadText == "" then Response(StatusBadRequest, None)
          else
            match env.decodePayload(payloadText)
            case None => Response(StatusBadRequest, None)
            case Some(p) =>
              if |p.actions| == 0 then Response(StatusBadRequest, None)
              else
                var text := ReplyFor(p);
                if env.respond(p.responseUrl, text) then Response(StatusOk, Some(text))
                else Response(StatusInternalServerError, Some(text))
  }

  /** The handler answers with one of five status codes. */
  lemma StatusCodes(req: Request, env: Environment)
    ensures HandleInteractive(req, env).status in {StatusOk, StatusBadRequest, StatusUnauthorized,
                                                   StatusMethodNotAllowed, StatusInternalServerError}
  {
  }

  /**
    Authentication comes before parsing: whether a request is refused as
    unauthorized does not depend on the form parser, the payload decoder or
    the response_url delivery.
   */
  lemma UnauthorizedBeforeParsing(req: Request, env: Environment, other: Environment)
    requires other.secret == env.secret && other.now == env.now && other.hmac == env.hmac
    ensures HandleInteractive(req, env).status == StatusUnauthorized
        <==> HandleInteractive(req, other).status == StatusUnauthorized
  {
  }

  /** A reply is delivered only for an authentic request whose payload has an action. */
  lemma ReplyOnlyWhenAuthentic(req: Request, env: Environment)
    requires HandleInteractive(req, env).reply.Some?
    ensures req.httpMethod == "POST" && req.body.Some? && Authentic(req, env)
    ensures FormGet(env.parseForm(req.body.value).value, "payload") != ""
  {
  }
}

/**
 * `POST /api/code-agent` (src/app/api/code-agent/route.ts): validate the JSON
 * body, pick the agent event by tier, send it, and label the response.
 */
module CodeAgentRoute {
  import opened Wrappers

  /** A parsed JSON value (numbers are modelled as integers). */
  datatype Json =
    | JNull
    | JBool(b: bool)
    | JNum(n: int)
    | JStr(s: string)
    | JArr(elems: seq<Json>)
    | JObj(fields: map<string, Json>)

  /** What `request.json()` produced. */
  datatype Request = InvalidJson | Body(body: Json)

  /** What `inngest.send` did: the event ids it returned, or a thrown error. */
  datatype SendResult = Sent(ids: seq<string>) | SendThrew

  datatype Event = Event(name: string, projectId: Json, value: Json)

  datatype ResponseBody =
    | ErrorBody(error: string)
    | SuccessBody(eventId: Option<string>, tier: Json, message: string)

  /** The event the handler tried to send (if any) and the response it returned. */
  datatype Outcome = Outcome(attempted: Option<Event>, status: int, body: ResponseBody)

  const FreeEvent := "free-tier-code-agent/run"
  const PremiumEvent := "code-agent/run"
  const MissingFields := "Missing projectId or message"
  const TriggerFailed := "Failed to trigger code agent"

  /** JavaScript truthiness of a present JSON value. */
  predicate Truthy(v: Json)
  {
    match v
    case JNull => false
    case JBool(b) => b
    case JNum(n) => n != 0
    case JStr(s) => s != ""
    case JArr(_) => true
    case JObj(_) => true
  }

  /** `body.key`: only an object has named members; anything else reads as undefined (None). */
  function Member(body: Json, key: string): Option<Json>
  {
    if body.JObj? && key in body.fields then Some(body.fields[key]) else None
  }

  predicate Present(v: Option<Json>)
  {
    v.Some? && Truthy(v.value)
  }

  /**
   * Whether the template literal of the log line can turn the value into a
   * string. A parsed object with its own `toString` member has no callable
   * `toString`, and its `valueOf` gives back the object itself, so the
   * conversion throws a TypeError; an array converts its elements in turn.
   */
  predicate Stringifiable(v: Json)
  {
    match v
    case JObj(fields) => "toString" !in fields
    case JArr(elems) => forall i :: 0 <= i < |elems| ==> Stringifiable(elems[i])
    case _ => true
  }

  /** The destructuring default `tier = "free"` applies only when the member is undefined. */
  function TierOf(body: Json): (t: Json)
    ensures Member(body, "tier").None? ==> t == JStr("free")
    ensures Member(body, "tier").Some? ==> t == Member(body, "tier").value
  {
    Member(body, "tier").GetOr(JStr("free"))
  }

  /** The free-tier event exactly for the tier string "free"; every other value, null included, is premium. */
  function EventName(tier: Json): (name: string)
    ensures name == FreeEvent <==> tier == JStr("free")
    ensures name == FreeEvent || name == PremiumEvent
  {
    if tier == JStr("free") then FreeEvent else PremiumEvent
  }

  const MessageSuffix := " code agent triggered successfully"
  const FreeMessage := "Free tier" + MessageSuffix
  const PremiumMessage := "Premium tier" + MessageSuffix

  /** The response message, labelled by the same test that picks the event. */
  function ResponseMessage(tier: Json): (m: string)
    ensures m == FreeMessage <==> tier == JStr("free")
    ensures m == PremiumMessage <==> tier != JStr("free")
  {
    var tierLabel := if tier == JStr("free") then "Free tier" else "Premium tier";
    assert |FreeMessage| == 9 + |MessageSuffix| && |PremiumMessage| == 12 + |MessageSuffix|;
    tierLabel + MessageSuffix
  }

  function Post(request: Request, send: SendResult): (r: Outcome)
    // unreadable JSON, or a null body that cannot be destructured, is a thrown error
    ensures (request.InvalidJson? || request.body.JNull?) ==> r == Outcome(None, 500, ErrorBody(TriggerFailed))
    // a missing or falsy projectId or message is rejected before anything is sent
    ensures request.Body? && !request.body.JNull? &&
            !(Present(Member(request.body, "projectId")) && Present(Member(request.body, "message")))
            ==> r == Outcome(None, 400, ErrorBody(MissingFields))
    // a tier or projectId the log line cannot turn into a string throws before the send
    ensures request.Body? && !request.body.JNull? &&
            Present(Member(request.body, "projectId")) && Present(Member(request.body, "message")) &&
            !(Stringifiable(TierOf(request.body)) && Stringifiable(Member(request.body, "projectId").value))
            ==> r == Outcome(None, 500, ErrorBody(TriggerFailed))
    // otherwise exactly one event is sent, carrying projectId and message unchanged
    ensures r.attempted.Some? <==>
            request.Body? && !request.body.JNull? &&
            Present(Member(request.body, "projectId")) && Present(Member(request.body, "message")) &&
            Stringifiable(TierOf(request.body)) && Stringifiable(Member(request.body, "projectId").value)
    ensures r.attempted.Some? ==>
            r.attempted.value.projectId == Member(request.body, "projectId").value &&
            r.attempted.value.value == Member(request.body, "message").value &&
            r.attempted.value.name == EventName(TierOf(request.body))
    // success only when the send returned, echoing the tier with the label chosen by the same test
    ensures r.status == 200 <==> r.attempted.Some? && send.Sent?
    ensures r.status == 200 ==>
            r.body.SuccessBody? && r.body.tier == TierOf(request.body) &&
            (r.body.message == FreeMessage <==> r.attempted.value.name == FreeEvent) &&
            (r.body.message == PremiumMessage <==> r.attempted.value.name == PremiumEvent) &&
            r.body.eventId == (if |send.ids| > 0 then Some(send.ids[0]) else None)
    ensures r.status != 200 ==> r.body.ErrorBody? && (r.status == 400 || r.status == 500)
    ensures r.attempted.Some? && send.SendThrew? ==> r.status == 500 && r.body == ErrorBody(TriggerFailed)
  {
    match request
    case InvalidJson => Outcome(None, 500, ErrorBody(TriggerFailed))
    case Body(body) =>
      if body.JNull? then Outcome(None, 500, ErrorBody(TriggerFailed))
      else
        var projectId := Member(body, "projectId");
        var message := Member(body, "message");
        var tier := TierOf(body);
        if !Present(projectId) || !Present(message) then
          Outcome(None, 400, ErrorBody(MissingFields))
        else if !Stringifiable(tier) || !Stringifiable(projectId.value) then
          Outcome(None, 500, ErrorBody(TriggerFailed))
        else
          var event := Event(EventName(tier), projectId.value, message.value);
          match send
          case SendThrew => Outcome(Some(event), 500, ErrorBody(TriggerFailed))
          case Sent(ids) =>
            var eventId := if |ids| > 0 then Some(ids[0]) else None;
            Outcome(Some(event), 200,
                    SuccessBody(eventId, tier, ResponseMessage(tier)))
  }

  /**
   * A valid body without a tier member is dispatched to the free-tier agent,
   * unless its projectId cannot be logged, in which case nothing is sent.
   */
  lemma AbsentTierIsFree(body: Json, send: SendResult)
    requires body.JObj? && "tier" !in body.fields
    requires Present(Member(body, "projectId")) && Present(Member(body, "message"))
    ensures Stringifiable(body.fields["projectId"]) ==>
              Post(Body(body), send).attempted == Some(Event(FreeEvent, body.fields["projectId"], body.fields["message"]))
    ensures !Stringifiable(body.fields["projectId"]) ==>
              Post(Body(body), send) == Outcome(None, 500, ErrorBody(TriggerFailed))
  {
  }

  /** `{"projectId": {"toString": 1}, "message": "m"}` is answered 500 and nothing is sent. */
  lemma UnloggableProjectIdIsNotSent(send: SendResult)
    ensures Post(Body(JObj(map["projectId" := JObj(map["toString" := JNum(1)]), "message" := JStr("m")])), send)
            == Outcome(None, 500, ErrorBody(TriggerFailed))
  {
    var projectId := JObj(map["toString" := JNum(1)]);
    var body := JObj(map["projectId" := projectId, "message" := JStr("m")]);
    assert Member(body, "projectId") == Some(projectId);
    assert !Stringifiable(projectId);
  }
}

/**
  The Xiaomi push provider: configuration, the form it posts to the gateway,
  how it classifies the gateway's reply, the send-to-tokens and send-to-all
  paths, and the delivery trace.

  Everything the provider does to the outside world is returned as a list of
  effects instead of being performed: the stats counters, the arrival store,
  the caller's callback and the HTTP requests. The reply an HTTP request gets
  (after the transport's own retries) is an input.
 */
module XiaomiProvider {
  import opened Options
  import opened JsValues
  import opened CommaLists

  const SendOneUrl: string := "https://api.xmpush.xiaomi.com/v3/message/regid"
  const SendAllUrl: string := "https://api.xmpush.xiaomi.com/v3/message/all"
  const TraceUrl: string := "https://api.xmpush.xiaomi.com/v1/trace/message/status"

  /** The stats tag of the token send path (`this.type`). */
  const ProviderType: string := "xiaomi"
  /** The stats tag of the broadcast path (`this.type + "All"`). */
  const SendAllTag: string := ProviderType + "All"

  /** The `code` values that mean the gateway took the message. */
  const SuccessCode: int := 0
  const AlreadySentCode: int := 20301

  /** Packet keys the trace reads and writes. */
  const MsgIdKey: string := "xiaomi_msg_id"
  const TraceResultKey: string := "xiaomi"

  /** The part of the configuration the provider interprets; `Undefined` when the key is absent. */
  datatype Config = Config(notifyForeground: JsValue)

  datatype Provider = Provider(notifyForeground: int)

  /** A notification: its id and its `android` object (title, message and any other fields). */
  datatype Notification = Notification(id: string, android: map<string, JsValue>)

  datatype TokenData = TokenData(token: string)

  /**
    The form posted to the gateway. `payload` is JSON text; `registrationId`
    is `None` when the field is not set at all.
   */
  datatype PostData = PostData(
    title: JsValue,
    description: JsValue,
    notifyId: JsValue,
    notifyForeground: int,
    payload: JsonText,
    registrationId: Option<string>,
    timeToLive: JsValue)

  /** What the decoded payload carries. */
  datatype PayloadContent = PayloadContent(android: map<string, JsValue>, id: string)

  datatype TransportError = TransportError(reason: string)

  datatype Response = Response(statusCode: int, elapsedTime: int)

  /**
    The three arguments of a request's completion callback. `body` is the
    body as JSON.parse reads it; `None` when parsing it throws.
   */
  datatype Reply = Reply(error: Option<TransportError>, response: Option<Response>, body: Option<JsValue>)

  /** How `success` ends: true, false, or an exception escaping the completion callback. */
  datatype Verdict = Accepted | Rejected | Threw

  /** Everything the provider does outside itself, in the order it does it. */
  datatype Effect =
    | AddTotal(tag: string)
    | AddSuccess(tag: string, count: nat, elapsedTime: int)
    | AddArrival(notificationId: string, msgId: JsValue)
    | Callback(error: Option<TransportError>)
    | Post(url: string, form: PostData)
    | Get(url: string, msgId: JsValue)
    | Deliver(packet: map<string, JsValue>)
    | ThrowUncaught

  datatype Classification = Classification(verdict: Verdict, effects: seq<Effect>)

  predicate IsTotal(e: Effect) { e.AddTotal? }
  predicate IsSuccess(e: Effect) { e.AddSuccess? }
  predicate IsArrival(e: Effect) { e.AddArrival? }
  predicate IsCallback(e: Effect) { e.Callback? }
  predicate IsRequest(e: Effect) { e.Post? || e.Get? }
  predicate IsDelivery(e: Effect) { e.Deliver? }
  predicate IsThrow(e: Effect) { e.ThrowUncaught? }

  /** The effects of one kind, in order. */
  function Filter(es: seq<Effect>, keep: Effect -> bool): (r: seq<Effect>)
    ensures |r| <= |es|
  {
    if |es| == 0 then []
    else (if keep(es[0]) then [es[0]] else []) + Filter(es[1..], keep)
  }

  lemma {:induction false} FilterAppend(a: seq<Effect>, b: seq<Effect>, keep: Effect -> bool)
    ensures Filter(a + b, keep) == Filter(a, keep) + Filter(b, keep)
  {
    if |a| > 0 {
      assert (a + b)[1..] == a[1..] + b;
      FilterAppend(a[1..], b, keep);
    } else {
      assert a + b == b;
    }
  }

  lemma FilterSingleton(e: Effect, keep: Effect -> bool)
    ensures Filter([e], keep) == if keep(e) then [e] else []
  {
  }

  lemma FilterPair(a: Effect, b: Effect, keep: Effect -> bool)
    ensures Filter([a, b], keep) == Filter([a], keep) + Filter([b], keep)
  {
  }

  /** The constructor: the foreground flag is 0 only when configured as exactly the number 0. */
  function NewProvider(config: Config): (p: Provider)
    ensures p.notifyForeground == 0 || p.notifyForeground == 1
    ensures p.notifyForeground == 0 <==> config.notifyForeground == Num(0)
  {
    Provider(if config.notifyForeground == Num(0) then 0 else 1)
  }

  function Title(n: Notification): JsValue {
    Prop(Obj(n.android), "title")
  }

  function Message(n: Notification): JsValue {
    Prop(Obj(n.android), "message")
  }

  function TokenTexts(tokens: seq<TokenData>): (texts: seq<string>)
    ensures |texts| == |tokens|
    ensures forall i :: 0 <= i < |tokens| ==> texts[i] == tokens[i].token
  {
    seq(|tokens|, i requires 0 <= i < |tokens| => tokens[i].token)
  }

  /** The object the payload text encodes. */
  function PayloadObject(n: Notification): JsValue {
    Obj(map["android" := Obj(n.android), "id" := Str(n.id)])
  }

  /** Reads a payload back: an object with exactly the keys "android" (an object) and "id" (a string). */
  function DecodePayload(t: JsonText): Option<PayloadContent> {
    var v := Parse(t);
    if v.Obj? && v.fields.Keys == {"android", "id"} && v.fields["android"].Obj? && v.fields["id"].Str?
    then Some(PayloadContent(v.fields["android"].fields, v.fields["id"].s))
    else None
  }

  /**
    `getPostData`. `tokens` is `None` for a falsy token list; `hash` is the
    id hash the provider imports, which is not part of this model.
   */
  function GetPostData(p: Provider, hash: string -> JsValue, n: Notification,
                       tokens: Option<seq<TokenData>>, timeToLive: JsValue): (form: PostData)
    ensures form.title == Title(n) && form.description == Message(n)
    ensures form.notifyId == hash(n.id)
    ensures form.notifyForeground == p.notifyForeground
    ensures form.registrationId.Some? <==> tokens.Some?
    ensures tokens.Some? ==> form.registrationId.value == Join(TokenTexts(tokens.value))
    ensures GreaterThanZero(timeToLive) ==> form.timeToLive == timeToLive
    ensures !GreaterThanZero(timeToLive) ==> form.timeToLive == Num(0)
    ensures ToNumber(form.timeToLive).Some? && ToNumber(form.timeToLive).value >= 0
  {
    PostData(
      Title(n),
      Message(n),
      hash(n.id),
      p.notifyForeground,
      Stringify(PayloadObject(n)),
      if tokens.Some? then Some(Join(TokenTexts(tokens.value))) else None,
      if GreaterThanZero(timeToLive) then timeToLive else Num(0))
  }

  /** No transport error and a response with status 200: the case in which `success` parses the body. */
  predicate Reached200(reply: Reply) {
    reply.error.None? && reply.response.Some? && reply.response.value.statusCode == 200
  }

  /** `result.code == 0 || result.code == 20301`, with JavaScript's loose equality. */
  predicate CodeAccepted(code: JsValue) {
    LooseEqualsNumber(code, SuccessCode) || LooseEqualsNumber(code, AlreadySentCode)
  }

  /** The arrival record made for a parsed body: one when `data.id` is truthy, whatever `code` says. */
  function ArrivalFor(result: JsValue, notificationId: string): (r: seq<Effect>)
    requires !Nullish(result)
    ensures |r| <= 1
    ensures |r| == 1 ==> r[0].AddArrival? && r[0].notificationId == notificationId && Truthy(r[0].msgId)
  {
    var data := Prop(result, "data");
    if Truthy(data) && Truthy(Prop(data, "id")) then [AddArrival(notificationId, Prop(data, "id"))] else []
  }

  /**
    `success`: the callback (when there is one) gets `error` before anything
    is looked at; on a 200 reply the body is parsed, an arrival is recorded
    when it carries `data.id`, and the verdict is true for an accepted code.
    An unparsable or `null` body makes the parse or the `.data` read throw.
   */
  function Success(reply: Reply, hasCallback: bool, notificationId: string): (c: Classification)
    ensures c.verdict == Accepted <==>
      Reached200(reply) && reply.body.Some? && !Nullish(reply.body.value)
      && CodeAccepted(Prop(reply.body.value, "code"))
    ensures c.verdict == Threw <==> Reached200(reply) && (reply.body.None? || Nullish(reply.body.value))
    ensures hasCallback ==> |c.effects| > 0 && c.effects[0] == Callback(reply.error)
    ensures !Reached200(reply) ==> c.effects == if hasCallback then [Callback(reply.error)] else []
  {
    var notified := if hasCallback then [Callback(reply.error)] else [];
    if !Reached200(reply) then
      Classification(Rejected, notified)
    else if reply.body.None? || Nullish(reply.body.value) then
      Classification(Threw, notified)
    else
      var result := reply.body.value;
      var arrival := ArrivalFor(result, notificationId);
      Classification(if CodeAccepted(Prop(result, "code")) then Accepted else Rejected, notified + arrival)
  }

  /** What follows the classification: a success counted under `tag`, nothing, or the escaping exception. */
  function Outcome(tag: string, reply: Reply, verdict: Verdict): seq<Effect>
    requires verdict == Accepted ==> reply.response.Some?
  {
    match verdict
    case Accepted => [AddSuccess(tag, 1, reply.response.value.elapsedTime)]
    case Rejected => []
    case Threw => [ThrowUncaught]
  }

  /**
    One send: count it under `tag`, post `form` to `url`, classify the reply,
    and count a success under the same tag when `success` says true.
   */
  function Dispatch(tag: string, url: string, form: PostData, reply: Reply,
                    hasCallback: bool, notificationId: string): (r: seq<Effect>)
    ensures |r| >= 2 && r[0] == AddTotal(tag) && r[1] == Post(url, form)
  {
    var c := Success(reply, hasCallback, notificationId);
    [AddTotal(tag), Post(url, form)] + c.effects + Outcome(tag, reply, c.verdict)
  }

  /** `sendMany`: nothing at all happens when the notification has no (truthy) android title. */
  function SendMany(p: Provider, hash: string -> JsValue, n: Notification, tokens: Option<seq<TokenData>>,
                    timeToLive: JsValue, hasCallback: bool, reply: Reply): (r: seq<Effect>)
    ensures !Truthy(Title(n)) <==> r == []
    ensures Truthy(Title(n)) ==> |r| >= 2 && r[0] == AddTotal(ProviderType)
    ensures Truthy(Title(n)) ==> r[1] == Post(SendOneUrl, GetPostData(p, hash, n, tokens, timeToLive))
  {
    if Truthy(Title(n)) then
      Dispatch(ProviderType, SendOneUrl, GetPostData(p, hash, n, tokens, timeToLive), reply, hasCallback, n.id)
    else
      []
  }

  /** `sendAll`: as `sendMany`, to every device, under its own stats tag and with no token list. */
  function SendAll(p: Provider, hash: string -> JsValue, n: Notification,
                   timeToLive: JsValue, hasCallback: bool, reply: Reply): (r: seq<Effect>)
    ensures !Truthy(Title(n)) <==> r == []
    ensures Truthy(Title(n)) ==> |r| >= 2 && r[0] == AddTotal(SendAllTag)
    ensures Truthy(Title(n)) ==> r[1] == Post(SendAllUrl, GetPostData(p, hash, n, None, timeToLive))
    ensures Truthy(Title(n)) ==> r[1].form.registrationId.None?
  {
    if Truthy(Title(n)) then
      Dispatch(SendAllTag, SendAllUrl, GetPostData(p, hash, n, None, timeToLive), reply, hasCallback, n.id)
    else
      []
  }

  /** A trace reply that settles the packet: it parses, and `data.data` is truthy. */
  predicate Settles(body: Option<JsValue>) {
    && body.Some? && !Nullish(body.value)
    && Truthy(Prop(body.value, "data"))
    && Truthy(Prop(Prop(body.value, "data"), "data"))
  }

  /** The `data.data` object of a settling reply. */
  function TraceStatus(body: Option<JsValue>): JsValue
    requires Settles(body)
  {
    Prop(Prop(body.value, "data"), "data")
  }

  /**
    What the trace callback does to the packet once the status query
    returns: a settling reply removes the message id and, when `resolved > 0`,
    attaches the status under "xiaomi"; any other reply (including one that
    does not parse, or parses to `null`) leaves the packet as it was.
   */
  function TracePacket(packet: map<string, JsValue>, body: Option<JsValue>): (r: map<string, JsValue>)
    ensures !Settles(body) ==> r == packet
    ensures Settles(body) ==> MsgIdKey !in r
    ensures Settles(body) && GreaterThanZero(Prop(TraceStatus(body), "resolved")) ==>
      TraceResultKey in r && r[TraceResultKey] == TraceStatus(body)
    ensures Settles(body) && !GreaterThanZero(Prop(TraceStatus(body), "resolved")) ==>
      r == packet - {MsgIdKey}
    ensures forall k :: k in r && k != TraceResultKey ==> k in packet && r[k] == packet[k]
    ensures forall k :: k in packet && k != MsgIdKey && k != TraceResultKey ==> k in r
  {
    if body.None? || Nullish(body.value) then packet
    else
      var data := Prop(body.value, "data");
      if Truthy(data) && Truthy(Prop(data, "data")) then
        var status := Prop(data, "data");
        var cleared := packet - {MsgIdKey};
        if GreaterThanZero(Prop(status, "resolved")) then cleared[TraceResultKey := status] else cleared
      else
        packet
  }

  /**
    `trace`: a packet without a (truthy) message id is delivered back as it is,
    with no request; otherwise the status query is made and the packet, updated
    by the reply, is delivered. `body` is the query's reply body as parsed.
   */
  function Trace(packet: map<string, JsValue>, body: Option<JsValue>): (r: seq<Effect>)
    ensures |Filter(r, IsDelivery)| == 1 && r[|r| - 1].Deliver?
    ensures !Truthy(Prop(Obj(packet), MsgIdKey)) ==> r == [Deliver(packet)]
    ensures Truthy(Prop(Obj(packet), MsgIdKey)) ==>
      r == [Get(TraceUrl, packet[MsgIdKey]), Deliver(TracePacket(packet, body))]
  {
    var msgId := Prop(Obj(packet), MsgIdKey);
    if Truthy(msgId) then [Get(TraceUrl, msgId), Deliver(TracePacket(packet, body))] else [Deliver(packet)]
  }
}

/**
  Properties of the Xiaomi provider model that relate several calls, or that
  compare an operation with an independent description of what it should do.
 */
module XiaomiProperties {
  import opened Options
  import opened NumberText
  import opened JsValues
  import opened CommaLists
  import opened XiaomiProvider

  // ---------------------------------------------------------------------------
  // The posted form

  /** The registration id lists the tokens in order: splitting it at "," gives them back. */
  lemma RegistrationIdListsTokens(p: Provider, hash: string -> JsValue, n: Notification,
                                  tokens: seq<TokenData>, timeToLive: JsValue)
    requires |tokens| > 0
    requires forall i :: 0 <= i < |tokens| ==> NoComma(tokens[i].token)
    ensures GetPostData(p, hash, n, Some(tokens), timeToLive).registrationId.Some?
    ensures Split(GetPostData(p, hash, n, Some(tokens), timeToLive).registrationId.value) == TokenTexts(tokens)
  {
    SplitJoin(TokenTexts(tokens));
  }

  /** A present but empty token list still sets the field, to the empty text. */
  lemma EmptyTokenListSetsEmptyField(p: Provider, hash: string -> JsValue, n: Notification, timeToLive: JsValue)
    ensures GetPostData(p, hash, n, Some([]), timeToLive).registrationId == Some("")
  {
  }

  /** The payload object is JSON-clean whenever the android object is. */
  lemma PayloadObjectIsJson(n: Notification)
    requires IsJson(Obj(n.android))
    ensures IsJson(PayloadObject(n))
  {
  }

  /** Decoding the posted payload gives back the notification's android object and id. */
  lemma PayloadRoundTrip(p: Provider, hash: string -> JsValue, n: Notification,
                         tokens: Option<seq<TokenData>>, timeToLive: JsValue)
    requires IsJson(Obj(n.android))
    ensures DecodePayload(GetPostData(p, hash, n, tokens, timeToLive).payload) == Some(PayloadContent(n.android, n.id))
  {
    PayloadObjectIsJson(n);
    JsonRoundTrip(PayloadObject(n));
    assert Parse(Stringify(PayloadObject(n))).fields.Keys == {"android", "id"};
  }

  /** Three time-to-live cases: -5 and `undefined` are posted as 0, and 3600 is posted as it is. */
  lemma TimeToLiveExamples(p: Provider, hash: string -> JsValue, n: Notification)
    ensures GetPostData(p, hash, n, None, Num(-5)).timeToLive == Num(0)
    ensures GetPostData(p, hash, n, None, Num(3600)).timeToLive == Num(3600)
    ensures GetPostData(p, hash, n, None, Undefined).timeToLive == Num(0)
  {
  }

  // ---------------------------------------------------------------------------
  // Classifying the reply

  const AcceptedCodes: set<int> := {SuccessCode, AlreadySentCode}

  /**
    An independent restatement of the acceptance rule: no transport error, status 200,
    and a body object whose `code` member is a non-null value that reads as
    one of the accepted codes.
   */
  predicate GatewayAccepted(reply: Reply) {
    && reply.error.None? && reply.response.Some? && reply.response.value.statusCode == 200
    && reply.body.Some? && reply.body.value.Obj?
    && "code" in reply.body.value.fields
    && var code := reply.body.value.fields["code"];
       !Nullish(code) && ToNumber(code).Some? && ToNumber(code).value in AcceptedCodes
  }

  /** `success` says true exactly for the replies the independent acceptance rule accepts. */
  lemma SuccessMatchesGatewayAcceptance(reply: Reply, hasCallback: bool, notificationId: string)
    ensures Success(reply, hasCallback, notificationId).verdict == Accepted <==> GatewayAccepted(reply)
  {
  }

  /** The arrival a reply leads to: the `data.id` of a parsed 200 body, when it is truthy. */
  predicate CarriesMsgId(reply: Reply) {
    && Reached200(reply) && reply.body.Some? && reply.body.value.Obj?
    && "data" in reply.body.value.fields
    && var data := reply.body.value.fields["data"];
       data.Obj? && "id" in data.fields && Truthy(data.fields["id"])
  }

  /**
    The callback runs once, first, with the transport error (when the caller
    passed one); the stats are never touched; and an arrival is recorded
    exactly when the reply carries a message id, whatever its `code`.
   */
  lemma SuccessEffects(reply: Reply, hasCallback: bool, notificationId: string)
    ensures var c := Success(reply, hasCallback, notificationId);
      && Filter(c.effects, IsCallback) == (if hasCallback then [Callback(reply.error)] else [])
      && Filter(c.effects, IsTotal) == [] && Filter(c.effects, IsSuccess) == []
      && Filter(c.effects, IsRequest) == [] && Filter(c.effects, IsDelivery) == []
      && (CarriesMsgId(reply) ==>
            Filter(c.effects, IsArrival)
              == [AddArrival(notificationId, reply.body.value.fields["data"].fields["id"])])
      && (!CarriesMsgId(reply) ==> Filter(c.effects, IsArrival) == [])
  {
  }

  /** Replacing the body's `code` never changes whether, or which, arrival is recorded. */
  lemma ArrivalIgnoresCode(reply: Reply, code: JsValue, hasCallback: bool, notificationId: string)
    requires reply.body.Some? && reply.body.value.Obj?
    ensures var other := reply.(body := Some(Obj(reply.body.value.fields["code" := code])));
      Filter(Success(reply, hasCallback, notificationId).effects, IsArrival)
        == Filter(Success(other, hasCallback, notificationId).effects, IsArrival)
  {
    var other := reply.(body := Some(Obj(reply.body.value.fields["code" := code])));
    SuccessEffects(reply, hasCallback, notificationId);
    SuccessEffects(other, hasCallback, notificationId);
    assert CarriesMsgId(reply) <==> CarriesMsgId(other);
  }

  function OkReply(body: JsValue): Reply {
    Reply(None, Some(Response(200, 12)), Some(body))
  }

  /** `{"code":0,"data":{"id":"M123"}}` is accepted and records arrival "M123". */
  lemma AcceptedReplyRecordsArrival()
    ensures var c := Success(OkReply(Obj(map["code" := Num(0), "data" := Obj(map["id" := Str("M123")])])), true, "n1");
      c.verdict == Accepted && c.effects == [Callback(None), AddArrival("n1", Str("M123"))]
  {
  }

  /** `{"code":10001,"data":{"id":"M9"}}` is rejected, yet its arrival is recorded. */
  lemma RejectedReplyStillRecordsArrival()
    ensures var c := Success(OkReply(Obj(map["code" := Num(10001), "data" := Obj(map["id" := Str("M9")])])), false, "n1");
      c.verdict == Rejected && c.effects == [AddArrival("n1", Str("M9"))]
  {
  }

  /** The reply `{"code": code}` to an error-free request with status 200. */
  function CodeOnlyReply(code: JsValue): Reply {
    OkReply(Obj(map["code" := code]))
  }

  lemma CodeOnlyReplyVerdict(code: JsValue)
    ensures Success(CodeOnlyReply(code), false, "n1").verdict == (if CodeAccepted(code) then Accepted else Rejected)
  {
  }

  /** Loose equality: a code sent as the text "0", or as `false`, is accepted like the number 0; `null` is not. */
  lemma LooselyEqualCodesAccepted()
    ensures Success(CodeOnlyReply(Str("0")), false, "n1").verdict == Accepted
    ensures Success(CodeOnlyReply(Bool(false)), false, "n1").verdict == Accepted
    ensures Success(CodeOnlyReply(Null), false, "n1").verdict == Rejected
  {
    ReadDigits("0");
    assert DigitsValue("0") == 0;
    assert LooseEqualsNumber(Str("0"), SuccessCode);
    CodeOnlyReplyVerdict(Str("0"));
    CodeOnlyReplyVerdict(Bool(false));
    CodeOnlyReplyVerdict(Null);
  }

  /** A transport error is a failure whatever came back, and the callback still sees it. */
  lemma TransportErrorRejects(err: TransportError, response: Option<Response>, body: Option<JsValue>, notificationId: string)
    ensures Success(Reply(Some(err), response, body), true, notificationId)
      == Classification(Rejected, [Callback(Some(err))])
  {
  }

  // ---------------------------------------------------------------------------
  // The send paths

  /** The effects of one kind in a send are those of its head, of `success`, and of its outcome. */
  lemma DispatchFilter(tag: string, url: string, form: PostData, reply: Reply,
                       hasCallback: bool, notificationId: string, keep: Effect -> bool)
    ensures var c := Success(reply, hasCallback, notificationId);
      Filter(Dispatch(tag, url, form, reply, hasCallback, notificationId), keep)
        == Filter([AddTotal(tag), Post(url, form)], keep) + Filter(c.effects, keep)
           + Filter(Outcome(tag, reply, c.verdict), keep)
  {
    var c := Success(reply, hasCallback, notificationId);
    var head := [AddTotal(tag), Post(url, form)];
    FilterAppend(head, c.effects, keep);
    FilterAppend(head + c.effects, Outcome(tag, reply, c.verdict), keep);
  }

  /** The effects of one kind in the outcome of a verdict. */
  lemma OutcomeFilter(tag: string, reply: Reply, verdict: Verdict, keep: Effect -> bool)
    requires verdict == Accepted ==> reply.response.Some?
    ensures Filter(Outcome(tag, reply, verdict), keep) ==
      match verdict
      case Accepted =>
        var e := AddSuccess(tag, 1, reply.response.value.elapsedTime);
        if keep(e) then [e] else []
      case Rejected => []
      case Threw => if keep(ThrowUncaught) then [ThrowUncaught] else []
  {
    match verdict
    case Accepted => FilterSingleton(AddSuccess(tag, 1, reply.response.value.elapsedTime), keep);
    case Rejected =>
    case Threw => FilterSingleton(ThrowUncaught, keep);
  }

  /** The effects of one kind in a send, with its two leading effects spelled out. */
  lemma DispatchByKind(tag: string, url: string, form: PostData, reply: Reply,
                       hasCallback: bool, notificationId: string, keep: Effect -> bool)
    ensures var c := Success(reply, hasCallback, notificationId);
      Filter(Dispatch(tag, url, form, reply, hasCallback, notificationId), keep)
        == (if keep(AddTotal(tag)) then [AddTotal(tag)] else [])
           + (if keep(Post(url, form)) then [Post(url, form)] else [])
           + Filter(c.effects, keep) + Filter(Outcome(tag, reply, c.verdict), keep)
  {
    DispatchFilter(tag, url, form, reply, hasCallback, notificationId, keep);
    FilterPair(AddTotal(tag), Post(url, form), keep);
    FilterSingleton(AddTotal(tag), keep);
    FilterSingleton(Post(url, form), keep);
  }

  /** A send counts exactly one total, under its tag. */
  lemma DispatchCountsOneTotal(tag: string, url: string, form: PostData, reply: Reply,
                               hasCallback: bool, notificationId: string)
    ensures Filter(Dispatch(tag, url, form, reply, hasCallback, notificationId), IsTotal) == [AddTotal(tag)]
  {
    var c := Success(reply, hasCallback, notificationId);
    SuccessEffects(reply, hasCallback, notificationId);
    DispatchByKind(tag, url, form, reply, hasCallback, notificationId, IsTotal);
    OutcomeFilter(tag, reply, c.verdict, IsTotal);
  }

  /** A send makes exactly one request: the post of its form. */
  lemma DispatchPostsOnce(tag: string, url: string, form: PostData, reply: Reply,
                          hasCallback: bool, notificationId: string)
    ensures Filter(Dispatch(tag, url, form, reply, hasCallback, notificationId), IsRequest) == [Post(url, form)]
  {
    var c := Success(reply, hasCallback, notificationId);
    SuccessEffects(reply, hasCallback, notificationId);
    DispatchByKind(tag, url, form, reply, hasCallback, notificationId, IsRequest);
    OutcomeFilter(tag, reply, c.verdict, IsRequest);
  }

  /** A send calls the caller back exactly as `success` does: once, with the transport error. */
  lemma DispatchCallsBackOnce(tag: string, url: string, form: PostData, reply: Reply,
                              hasCallback: bool, notificationId: string)
    ensures Filter(Dispatch(tag, url, form, reply, hasCallback, notificationId), IsCallback)
      == if hasCallback then [Callback(reply.error)] else []
  {
    var c := Success(reply, hasCallback, notificationId);
    SuccessEffects(reply, hasCallback, notificationId);
    DispatchByKind(tag, url, form, reply, hasCallback, notificationId, IsCallback);
    OutcomeFilter(tag, reply, c.verdict, IsCallback);
  }

  /** A send counts one success under its tag exactly when `success` says true, and none otherwise. */
  lemma DispatchCountsSuccessIffAccepted(tag: string, url: string, form: PostData, reply: Reply,
                                         hasCallback: bool, notificationId: string)
    ensures var r := Dispatch(tag, url, form, reply, hasCallback, notificationId);
      && (Success(reply, hasCallback, notificationId).verdict == Accepted ==>
            Filter(r, IsSuccess) == [AddSuccess(tag, 1, reply.response.value.elapsedTime)])
      && (Success(reply, hasCallback, notificationId).verdict != Accepted ==> Filter(r, IsSuccess) == [])
  {
    var c := Success(reply, hasCallback, notificationId);
    SuccessEffects(reply, hasCallback, notificationId);
    DispatchByKind(tag, url, form, reply, hasCallback, notificationId, IsSuccess);
    OutcomeFilter(tag, reply, c.verdict, IsSuccess);
  }

  /** A send escapes with an exception exactly when `success` threw, and only once. */
  lemma DispatchThrowsIffThrew(tag: string, url: string, form: PostData, reply: Reply,
                               hasCallback: bool, notificationId: string)
    ensures Filter(Dispatch(tag, url, form, reply, hasCallback, notificationId), IsThrow)
      == if Success(reply, hasCallback, notificationId).verdict == Threw then [ThrowUncaught] else []
  {
    var c := Success(reply, hasCallback, notificationId);
    SuccessEffects(reply, hasCallback, notificationId);
    DispatchByKind(tag, url, form, reply, hasCallback, notificationId, IsThrow);
    OutcomeFilter(tag, reply, c.verdict, IsThrow);
  }

  /** A send records the arrival `success` records, for its own notification, and no other. */
  lemma DispatchRecordsArrival(tag: string, url: string, form: PostData, reply: Reply,
                               hasCallback: bool, notificationId: string)
    ensures Filter(Dispatch(tag, url, form, reply, hasCallback, notificationId), IsArrival)
      == if CarriesMsgId(reply)
         then [AddArrival(notificationId, reply.body.value.fields["data"].fields["id"])]
         else []
  {
    var c := Success(reply, hasCallback, notificationId);
    SuccessEffects(reply, hasCallback, notificationId);
    DispatchByKind(tag, url, form, reply, hasCallback, notificationId, IsArrival);
    OutcomeFilter(tag, reply, c.verdict, IsArrival);
  }

  /** A send never delivers a packet: delivery belongs to tracing. */
  lemma DispatchDeliversNothing(tag: string, url: string, form: PostData, reply: Reply,
                                hasCallback: bool, notificationId: string)
    ensures Filter(Dispatch(tag, url, form, reply, hasCallback, notificationId), IsDelivery) == []
  {
    var c := Success(reply, hasCallback, notificationId);
    SuccessEffects(reply, hasCallback, notificationId);
    DispatchByKind(tag, url, form, reply, hasCallback, notificationId, IsDelivery);
    OutcomeFilter(tag, reply, c.verdict, IsDelivery);
  }

  /** One send, every kind of effect at once. */
  lemma DispatchEffects(tag: string, url: string, form: PostData, reply: Reply,
                        hasCallback: bool, notificationId: string)
    ensures var r := Dispatch(tag, url, form, reply, hasCallback, notificationId);
      var verdict := Success(reply, hasCallback, notificationId).verdict;
      && Filter(r, IsTotal) == [AddTotal(tag)]
      && Filter(r, IsRequest) == [Post(url, form)]
      && Filter(r, IsCallback) == (if hasCallback then [Callback(reply.error)] else [])
      && Filter(r, IsSuccess)
           == (if verdict == Accepted then [AddSuccess(tag, 1, reply.response.value.elapsedTime)] else [])
      && Filter(r, IsThrow) == (if verdict == Threw then [ThrowUncaught] else [])
      && Filter(r, IsArrival)
           == (if CarriesMsgId(reply)
               then [AddArrival(notificationId, reply.body.value.fields["data"].fields["id"])] else [])
      && Filter(r, IsDelivery) == []
  {
    DispatchRecordsArrival(tag, url, form, reply, hasCallback, notificationId);
    DispatchDeliversNothing(tag, url, form, reply, hasCallback, notificationId);
    DispatchCountsOneTotal(tag, url, form, reply, hasCallback, notificationId);
    DispatchPostsOnce(tag, url, form, reply, hasCallback, notificationId);
    DispatchCallsBackOnce(tag, url, form, reply, hasCallback, notificationId);
    DispatchCountsSuccessIffAccepted(tag, url, form, reply, hasCallback, notificationId);
    DispatchThrowsIffThrew(tag, url, form, reply, hasCallback, notificationId);
  }

  /**
    `sendMany` with a title: one "xiaomi" total, the one post of its form, the
    callback with the transport error, a "xiaomi" success timed by the
    response exactly when accepted, the escaping exception exactly when
    `success` threw, the arrival for this notification exactly when the reply
    carries a message id, and no delivery.
   */
  lemma SendManyStats(p: Provider, hash: string -> JsValue, n: Notification, tokens: Option<seq<TokenData>>,
                      timeToLive: JsValue, hasCallback: bool, reply: Reply)
    requires Truthy(Title(n))
    ensures var r := SendMany(p, hash, n, tokens, timeToLive, hasCallback, reply);
      var verdict := Success(reply, hasCallback, n.id).verdict;
      && Filter(r, IsTotal) == [AddTotal(ProviderType)]
      && Filter(r, IsRequest) == [Post(SendOneUrl, GetPostData(p, hash, n, tokens, timeToLive))]
      && Filter(r, IsCallback) == (if hasCallback then [Callback(reply.error)] else [])
      && Filter(r, IsSuccess)
           == (if verdict == Accepted then [AddSuccess(ProviderType, 1, reply.response.value.elapsedTime)] else [])
      && Filter(r, IsThrow) == (if verdict == Threw then [ThrowUncaught] else [])
      && Filter(r, IsArrival)
           == (if CarriesMsgId(reply) then [AddArrival(n.id, reply.body.value.fields["data"].fields["id"])] else [])
      && Filter(r, IsDelivery) == []
  {
    DispatchEffects(ProviderType, SendOneUrl, GetPostData(p, hash, n, tokens, timeToLive), reply, hasCallback, n.id);
  }

  /**
    `sendAll` with a title: one "xiaomiAll" total, the one post of its form,
    the callback with the transport error, a "xiaomiAll" success timed by the
    response exactly when accepted, the escaping exception exactly when
    `success` threw, the arrival for this notification exactly when the reply
    carries a message id, and no delivery.
   */
  lemma SendAllStats(p: Provider, hash: string -> JsValue, n: Notification,
                     timeToLive: JsValue, hasCallback: bool, reply: Reply)
    requires Truthy(Title(n))
    ensures var r := SendAll(p, hash, n, timeToLive, hasCallback, reply);
      var verdict := Success(reply, hasCallback, n.id).verdict;
      && Filter(r, IsTotal) == [AddTotal(SendAllTag)]
      && Filter(r, IsRequest) == [Post(SendAllUrl, GetPostData(p, hash, n, None, timeToLive))]
      && Filter(r, IsCallback) == (if hasCallback then [Callback(reply.error)] else [])
      && Filter(r, IsSuccess)
           == (if verdict == Accepted then [AddSuccess(SendAllTag, 1, reply.response.value.elapsedTime)] else [])
      && Filter(r, IsThrow) == (if verdict == Threw then [ThrowUncaught] else [])
      && Filter(r, IsArrival)
           == (if CarriesMsgId(reply) then [AddArrival(n.id, reply.body.value.fields["data"].fields["id"])] else [])
      && Filter(r, IsDelivery) == []
  {
    DispatchEffects(SendAllTag, SendAllUrl, GetPostData(p, hash, n, None, timeToLive), reply, hasCallback, n.id);
  }

  // ---------------------------------------------------------------------------
  // Tracing

  /** Once a reply has settled a packet, tracing it again is a no-op that makes no request. */
  lemma SettledPacketIsFinal(packet: map<string, JsValue>, body: Option<JsValue>, later: Option<JsValue>)
    requires Settles(body)
    ensures var settled := TracePacket(packet, body);
      Trace(settled, later) == [Deliver(settled)]
  {
  }

  /** A parsed reply without `data.data` (here: an error object) leaves the packet as it was. */
  lemma UnsettledReplyKeepsPacket(packet: map<string, JsValue>)
    ensures TracePacket(packet, Some(Obj(map["code" := Num(-1)]))) == packet
    ensures TracePacket(packet, Some(Null)) == packet
    ensures TracePacket(packet, None) == packet
  {
  }

  /** `{"data":{"data":{"resolved":1,"extra":"x"}}}` drops the message id and attaches the status. */
  lemma ResolvedTraceExample()
    ensures var status := Obj(map["resolved" := Num(1), "extra" := Str("x")]);
      TracePacket(map[MsgIdKey := Str("M1"), "id" := Str("n1")],
                  Some(Obj(map["data" := Obj(map["data" := status])])))
        == map["id" := Str("n1"), TraceResultKey := status]
  {
  }

  /** With `resolved` at 0 the message id is still dropped, and no status is attached. */
  lemma UnresolvedTraceDropsId()
    ensures TracePacket(map[MsgIdKey := Str("M1"), "id" := Str("n1")],
                        Some(Obj(map["data" := Obj(map["data" := Obj(map["resolved" := Num(0)])])])))
      == map["id" := Str("n1")]
  {
  }
}

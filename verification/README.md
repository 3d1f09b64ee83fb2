# Xiaomi push provider, modelled in Dafny

This project models the Xiaomi push provider of the push server
(`push-server/lib/service/xiaomiProvider.js`): the adapter that turns a
notification into the form the Xiaomi gateway expects, posts it to one set of
device tokens (`sendMany`) or to every device (`sendAll`), classifies the
gateway's reply (`success`), records the gateway's message id as arrival
information, counts totals and successes per stats tag, and later asks the
gateway whether a message arrived (`trace`).

The model is functional. Each operation is a pure function. Whatever the
provider does to the outside world is returned as a list of effects, in
order: `AddTotal`, `Post`, `Callback`, `AddArrival`, `AddSuccess`, `Get`,
`Deliver`, and `ThrowUncaught` for an exception escaping a completion
callback. The reply to an HTTP request is an input. It holds the transport
error, the response's status and elapsed time, and the body as JSON.parse
reads it (`None` when parsing throws).

The JavaScript rules the source relies on are modelled explicitly in
`js_values.dfy` and `number_text.dfy`:
- truthiness, for `if (notification.android.title)`, `if (tokenDataList)` and `result.data && result.data.id`;
- the loose `result.code == 0`, under which `"0"`, `false` and `[0]` also equal 0;
- the relational `resolved > 0`;
- what JSON.stringify followed by JSON.parse keeps of a value.

Files:
- `options.dfy`: the `Option` type.
- `number_text.dfy`: integer-to-text and text-to-number conversion, with their round trip.
- `comma_lists.dfy`: `join()` with ",", a split, and the split-join round trip.
- `js_values.dfy`: JavaScript values, the coercions above, and the JSON round trip.
- `xiaomi_provider.dfy`: the provider itself.
- `xiaomi_properties.dfy`: lemmas that relate the operations to each other and to independent descriptions.

Behaviour of the code that is easy to miss, and that the model keeps:
- An arrival is recorded on every error-free 200 reply whose body has a truthy `data.id`. This happens even when `code` is a failure code.
- A token list that is present but empty still sets `registration_id` to the empty text. Only a falsy list leaves the field out, and `sendAll` passes `0`.
- A 200 reply whose body does not parse, or parses to `null`, makes `success` throw. Nothing catches that exception. The model records this as the verdict `Threw` and the effect `ThrowUncaught`.
- `trace` parses the reply body whatever the transport error or status was. A body that settles the packet is applied even on a non-200 reply.
- With no title, neither send path calls the caller back.

## Model

| member | source | states |
|---|---|---|
| XiaomiProvider.NewProvider | push-server/lib/service/xiaomiProvider.js:23 | the foreground flag is 0 or 1, and 0 exactly when the configured value is the number 0 (absent, "0" or false give 1) |
| XiaomiProvider.GetPostData | push-server/lib/service/xiaomiProvider.js:49-72 | title and description are the android title and message; notify_id is the hash of the id; the flag is the provider's; registration_id is set iff a token list is given, and then is the tokens joined by ","; time_to_live is kept when it is > 0, else 0, so it is never negative |
| XiaomiProvider.TokenTexts | push-server/lib/service/xiaomiProvider.js:62-64 | the token texts are the tokens' `token` fields, in list order |
| XiaomiProvider.ArrivalFor | push-server/lib/service/xiaomiProvider.js:104-108 | at most one arrival is recorded, for the given notification id, carrying a truthy message id |
| XiaomiProvider.Success | push-server/lib/service/xiaomiProvider.js:97-114 | the verdict is true iff there is no error, a response with status 200, a parsed non-null body and a code loosely equal to 0 or 20301; the verdict is a throw iff a 200 body does not parse or is null; the callback, when given, is the first effect and gets the error; without a 200 reply only the callback happens |
| XiaomiProvider.Dispatch | push-server/lib/service/xiaomiProvider.js:28-45 | a send starts by counting its total and then posting its form |
| XiaomiProvider.SendMany | push-server/lib/service/xiaomiProvider.js:26-47 | no effects at all iff the android title is falsy; otherwise the "xiaomi" total comes first, then the post of the form built from the same arguments to the regid URL |
| XiaomiProvider.SendAll | push-server/lib/service/xiaomiProvider.js:74-95 | no effects at all iff the title is falsy; otherwise the "xiaomiAll" total, then a post to the all-devices URL of the form built from the same notification and time to live with no token list, so without registration_id |
| XiaomiProvider.TracePacket | push-server/lib/service/xiaomiProvider.js:128-139 | an unparsed or unsettling reply leaves the packet unchanged; a settling reply removes the message id, and then attaches data.data under "xiaomi" when resolved > 0 and otherwise changes nothing else; no key other than the message id and "xiaomi" is touched |
| XiaomiProvider.Trace | push-server/lib/service/xiaomiProvider.js:116-144 | without a truthy message id the only effect is delivering the packet unchanged; with one, the effects are exactly the status query for that id followed by delivering the packet as the reply updated it |
| XiaomiProperties.RegistrationIdListsTokens | push-server/lib/service/xiaomiProvider.js:61-65 | splitting registration_id at "," gives back the token texts in order, for non-empty lists of comma-free tokens |
| XiaomiProperties.EmptyTokenListSetsEmptyField | push-server/lib/service/xiaomiProvider.js:61-65 | an empty but present token list sets registration_id to "" |
| XiaomiProperties.PayloadRoundTrip | push-server/lib/service/xiaomiProvider.js:56-59 | decoding the payload gives an object with exactly the android object and the notification id |
| XiaomiProperties.TimeToLiveExamples | push-server/lib/service/xiaomiProvider.js:66-70 | a time to live of -5 or undefined is posted as 0, and 3600 as 3600 |
| XiaomiProperties.SuccessMatchesGatewayAcceptance | push-server/lib/service/xiaomiProvider.js:101-113 | success is true exactly when the reply is error-free with status 200 and the body is an object whose non-null code reads as a number in {0, 20301} |
| XiaomiProperties.SuccessEffects | push-server/lib/service/xiaomiProvider.js:97-108 | success calls back once with the error when a callback is given, touches no stats and makes no request, and records one arrival exactly when a 200 body carries a truthy data.id |
| XiaomiProperties.ArrivalIgnoresCode | push-server/lib/service/xiaomiProvider.js:104-109 | changing the body's code never changes whether or which arrival is recorded |
| XiaomiProperties.AcceptedReplyRecordsArrival | push-server/lib/service/xiaomiProvider.js:98-111 | {"code":0,"data":{"id":"M123"}} is accepted, after the callback, with arrival "M123" |
| XiaomiProperties.RejectedReplyStillRecordsArrival | push-server/lib/service/xiaomiProvider.js:104-113 | {"code":10001,"data":{"id":"M9"}} is rejected, yet its arrival is recorded |
| XiaomiProperties.LooselyEqualCodesAccepted | push-server/lib/service/xiaomiProvider.js:109 | the codes "0" and false count as 0, and null does not |
| XiaomiProperties.TransportErrorRejects | push-server/lib/service/xiaomiProvider.js:97-113 | with a transport error the verdict is false and the only effect is the callback with that error, whatever the response and body |
| XiaomiProperties.DispatchCountsOneTotal | push-server/lib/service/xiaomiProvider.js:28-45 | a send counts exactly one total, under its tag |
| XiaomiProperties.DispatchPostsOnce | push-server/lib/service/xiaomiProvider.js:29-38 | a send makes exactly one request, the post of its form |
| XiaomiProperties.DispatchCallsBackOnce | push-server/lib/service/xiaomiProvider.js:38-40 | a send calls back once with the transport error when a callback is given, and never otherwise |
| XiaomiProperties.DispatchCountsSuccessIffAccepted | push-server/lib/service/xiaomiProvider.js:40-43 | a send counts one success, under the same tag and with the response's elapsed time, exactly when success is true |
| XiaomiProperties.DispatchThrowsIffThrew | push-server/lib/service/xiaomiProvider.js:38-45 | a send ends in one escaping exception exactly when success threw on an unparsable or null 200 body, and a rejected reply ends it quietly |
| XiaomiProperties.DispatchRecordsArrival | push-server/lib/service/xiaomiProvider.js:104-107 | a send records one arrival, for its own notification id and the reply's data.id, exactly when a 200 body carries a truthy data.id, and none otherwise |
| XiaomiProperties.DispatchDeliversNothing | push-server/lib/service/xiaomiProvider.js:26-47 | a send never delivers a packet; only tracing calls back with one |
| XiaomiProperties.DispatchEffects | push-server/lib/service/xiaomiProvider.js:26-47 | every kind of effect of a send together: one total, one post, the callback with the transport error, one timed success under the tag iff accepted, one escaping exception iff success threw, the arrival for its own notification iff the reply carries data.id, and no delivery |
| XiaomiProperties.SendManyStats | push-server/lib/service/xiaomiProvider.js:26-47 | sendMany with a title counts one "xiaomi" total, posts its form once to the regid URL, calls back only with the transport error, counts addSuccess("xiaomi", 1, elapsedTime) iff accepted, and escapes with an exception iff the 200 body is unparsable or null, records the arrival for notification.id iff the reply carries data.id, and delivers nothing |
| XiaomiProperties.SendAllStats | push-server/lib/service/xiaomiProvider.js:74-95 | sendAll with a title counts one "xiaomiAll" total, posts its form once to the all URL, calls back only with the transport error, counts addSuccess("xiaomiAll", 1, elapsedTime) iff accepted, and escapes with an exception iff the 200 body is unparsable or null, records the arrival for notification.id iff the reply carries data.id, and delivers nothing |
| XiaomiProperties.SettledPacketIsFinal | push-server/lib/service/xiaomiProvider.js:116-137 | once a reply has settled a packet, tracing it again makes no request and returns it unchanged |
| XiaomiProperties.UnsettledReplyKeepsPacket | push-server/lib/service/xiaomiProvider.js:130-139 | an error body, a null body and an unparsable body all leave the packet unchanged |
| XiaomiProperties.ResolvedTraceExample | push-server/lib/service/xiaomiProvider.js:132-136 | {"data":{"data":{"resolved":1,"extra":"x"}}} removes the message id and attaches the whole status object |
| XiaomiProperties.UnresolvedTraceDropsId | push-server/lib/service/xiaomiProvider.js:132-136 | with resolved 0 the message id is still removed and no status is attached |
| CommaLists.SplitJoin | push-server/lib/service/xiaomiProvider.js:62-64 | splitting a join of comma-free texts gives back the texts in order |
| JsValues.JsonRoundTrip | push-server/lib/service/xiaomiProvider.js:56-59 | a value without undefined survives JSON.stringify and JSON.parse unchanged |
| JsValues.JsonImageIsJson | push-server/lib/service/xiaomiProvider.js:56-59 | whatever is stringified, what parses back contains no undefined |
| JsValues.LooseEqualsNumberOnText | push-server/lib/service/xiaomiProvider.js:109 | a code sent as the text of an integer loosely equals exactly that integer |
| NumberText.IntToDecimalRoundTrip | push-server/lib/service/xiaomiProvider.js:109 | reading back the text an integer prints as gives the integer |

## Left out

- HTTP transport: the request library's retries, timeouts and headers. The model takes the final reply as an input and does not model the retry count, delay or strategy. The `Authorization` header, and with it `app_secret`, is not modelled.
- The id hash (`util.hash`) comes from a package that is not part of this model. It is a function parameter with no properties assumed.
- Logging calls.
- The stats and arrival stores. They appear only as emitted effects. Elapsed time is part of the response input.
- Concurrency and the completion order of requests in flight. Each call is modelled on its own.
- `push-server/index.js`: command-line parsing, configuration loading, and the forking and respawning of workers. This is process infrastructure with no decision logic.
- In-place update of the packet. The source deletes the message id from the caller's `packetInfo` object and assigns `xiaomi` on that same object, then calls back with it, so every holder of that object sees the change. The model returns a new packet value instead, so aliasing is not modelled.
- JSON text itself. A payload is represented by the value JSON.parse would read back from it, so key order and escaping are not modelled.
- JsValues.JsValue: numbers are integers. Fractional numbers, NaN and the infinities are not modelled, so neither are fractional codes or times to live.
- NumberText.StringToNumber: reads only optionally signed decimal integers. Fractional, exponent, hexadecimal, octal, binary and "Infinity" texts read as NaN here, where JavaScript reads them as numbers.
- JsValues.ToNumber: an object converts through "[object Object]" to NaN. The TypeError JavaScript raises for a parsed object that has its own `toString` key is not modelled. The same holds for the `code` and `resolved` comparisons built on it.
- XiaomiProvider.Notification: the `android` member is always an object. A notification without one, where the source throws on reading `.title`, is not modelled.
- XiaomiProvider.TokenData: tokens are texts. A missing token, which `join()` would print as empty text, is not modelled.

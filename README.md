# pixela-client-go, modelled in Dafny

pixela-client-go is a thin Go client for the Pixela REST service. The service records "pixels"
(a quantity per date) in graphs that belong to an account. A `Client` holds an account name and
token and hands out one accessor per group of endpoints: user, graph, pixel, channel,
notification and webhook. Each operation of an accessor builds a request descriptor
(method, URL, header map, body bytes), passes it to a transport helper, and post-processes the
decoded response. This project models that logic:

- `wrappers.dfy`: `Option`.
- `json.dfy` (`Json`): what Go's `json.Marshal` writes for the flat request records.
  - Keys come out in field order, and an `omitempty` field holding an empty value is dropped.
  - Strings are escaped as section 7 of RFC 8259 allows, plus Go's HTML escaping of `<`, `>`,
    `&`, U+2028 and U+2029.
  - The encoder is proved against a reference reader of the whitespace-free subset of RFC 8259
    that the encoder writes (null, booleans, strings, string arrays, objects; no numbers):
    `Decode(Encode(v)) == Some(v)`, and it writes no two values the same way (`EncodeInjective`).
  - Every builder's body contract states the exact text: `r.body == Bytes(Encode(JObject(ms)))`
    for an explicit member list `ms`. The reader alone would not pin it, since it accepts several
    spellings of one string (a raw `>` as well as `\u003e`).
- `rest.dfy` (`Rest`): the shared pieces.
  - The request descriptor, the `Result` envelope and the kinds of failure.
  - The success rule `IsSuccess = (Message == "")`.
  - The two ways a decoded record is returned: settled or passed through.
- `user.dfy`, `graph.dfy`, `pixel.dfy`, `channel.dfy`, `notification.dfy`, `webhook.dfy`: one
  module per accessor, with every request builder and the post-decode logic of the operations
  that have any.
  - `ChannelApi.GetAll` is a method. It fills a preallocated array entry by entry and returns
    early on the first entry it cannot convert.
- `client.dfy` (`ClientApi`): the `Client` class and its accessors. `UpdateUser` adopts the new
  token only after a successful call.

The transport is outside the model. An operation that calls it takes it as a function
parameter from request descriptor to outcome: `fetch` when the operation decodes the response
itself, `send` for `doRequestAndParseResponse`. Its contract states which descriptor it sends
and what it does with the outcome.

Several values are defined outside the modelled files: the API base URL, the two header names
`userToken` and `contentLength`, and the package-level `token`.
- A URL is `ApiUrl(path)`, standing for the base URL followed by `path`.
- The header names are the two constructors of `HeaderKey`.
- The package-level token is a parameter, `packageToken`.

Where the Go tests disagree with the code, the model follows the code:

- `graph.go:175` defines `URL()` with no argument. `graph_test.go:205-224` calls `URL(mode)`
  and expects `?mode=…` to be appended. `GraphApi.Url` has no mode.
- `pixel.go:28` takes `optionalData`, and `pixelCreate` (`pixel.go:43-47`) has no
  `omitempty`. `pixel_test.go:12,30` calls the two-argument form and expects
  `{"date":…,"quantity":…}`. The code always sends `"optionalData"`
  (`PixelApi.CreateAlwaysSendsOptionalData`).
- The same holds for the update. `pixel.go:136` takes `optionalData`, and `pixelUpdate`
  (`pixel.go:151-154`) has no `omitempty`. `pixel_test.go:235,253` calls the two-argument form
  and expects `{"quantity":"5"}`. The code always sends `"optionalData"`
  (`PixelApi.UpdateAlwaysSendsOptionalData`).
- `graph.go:162` and `pixel.go:84` authenticate with the package-level `token`, not the
  accessor's `Token`. `GraphApi.GetSvgRequest` and `PixelApi.DecrementRequest` take it as
  `packageToken`. Two lemmas state when they coincide with the accessor's token:
  `GraphApi.GetSvgTokenIsPackageToken` and `PixelApi.CounterHeadersAgreeOnlyForSameToken`.

## Model

| member | source | states |
|---|---|---|
| Json.KeptMembers | user.go:46-52 | a struct member is emitted exactly when some field carries it and is not an `omitempty` field holding an empty value |
| Json.HtmlCharactersEscaped | notification_test.go:32 | `<`, `>` and `&` are written as `\u003c`, `\u003e`, `\u0026` with lower-case hex digits |
| Json.Kept | user.go:46-52 | reflection emits no more members than the struct has fields (order: `Json.KeptAppend`; which ones: `Json.KeptMembers`) |
| Json.KeptAppend | user.go:46-52 | reflection works field by field: the members of two runs of fields are those of the first followed by those of the second, and one field gives exactly its own member or none, so field order is kept |
| Json.EscapeChar | user.go:33 | the text written for one character is never empty, never starts with a raw quote, and is the character itself exactly when it needs no escaping |
| Json.ShortAndUnicodeEscapes | user.go:33 | the quote, backslash, newline, carriage return and tab get their two-character escapes; every other control character c gets `\u00` and the two lower-case hex digits of c; U+2028/U+2029 get `\u2028`/`\u2029` |
| Json.Escape | user.go:33 | an escaped string is never shorter than the string, and exactly as long only when no character needed escaping |
| Json.Encode | user.go:33 | an object is written between braces; its partners are `Json.DecodeEncode`, `Json.EncodeInjective` and `Json.EncodeSafe` |
| Json.MemberWritten | user.go:33 | every member of an object appears whole, as `"key":value`, in the object's text |
| Json.EncodeTwoMembers | user.go:33 | an object of two members is written `{`, the first member, a comma, the second member, `}` |
| Json.EncodeSafe | notification.go:51 | the encoder never writes a raw `<`, `>`, `&`, control character, U+2028 or U+2029 |
| Json.EscapePlain | user_test.go:26 | a string with no character that needs escaping is written unchanged |
| Json.PlainStringMember | user_test.go:80 | a member whose key and value need no escaping is written as `"key":"value"`, with no white space |
| Json.DecodeEncode | user.go:33 | a reader of the whitespace-free JSON subset the encoder writes recovers every value the encoder writes |
| Json.EncodeInjective | user.go:75 | two different values are never written as the same text |
| Rest.Settle | graph.go:110 | after decoding, the success flag is true exactly when the message is empty, and the message is kept |
| Rest.SettleKeepsConsistent | graph.go:110 | settling leaves a result unchanged exactly when its flag already matched its message |
| Rest.Settled | graph.go:94-112 | the decoded record with payload and message kept and the flag recomputed; on a failed request or decoding, the zero record and the error |
| Rest.Passed | webhook.go:18-35 | the decoded record returned exactly as decoded; on failure, the zero record and the error |
| Rest.SettledAgreesWithPassed | webhook.go:29-34 | returning a record as decoded and settling it agree exactly when the service's flag matched its message |
| Rest.ObjectBodyReads | user.go:33-42 | a body holding the encoder's text for an object reads back as that object |
| Rest.JsonBodyReads | user.go:33-42 | a marshalled body reads back as the object of the struct's emitted members |
| Rest.JsonBodyHtmlSafe | notification.go:51-60 | a marshalled request body contains no raw HTML character |
| UserApi.BoolToString | user.go:54-59 | true is "yes" and false is "no", and nothing else is produced |
| UserApi.UserCreateFields | user.go:46-52 | `userCreate` has five fields and only the last, thanksCode, is `omitempty` |
| UserApi.UserUpdateFields | user.go:88-91 | `userUpdate` has two fields and only thanksCode is `omitempty` |
| UserApi.UserCreateEmits | user.go:46-52 | `userCreate` has keys token, username, AgreeTermsOfService, NotMinor, then thanksCode only when it is not empty |
| UserApi.UserUpdateEmits | user.go:88-91 | `userUpdate` has newToken, then thanksCode only when it is not empty |
| UserApi.CreateRequest | user.go:25-44 | POST `/users` with an empty header map; the body is exactly the encoded object of token, name, the two flags as "yes"/"no" strings, and the thanks code when not empty, in that order |
| UserApi.UpdateRequest | user.go:70-86 | PUT `/users/{name}` with the token header; the body is exactly the encoded object of the new token, then the thanks code when not empty |
| UserApi.DeleteRequest | user.go:102-109 | DELETE `/users/{name}` with the token header and an empty body |
| UserApi.UpdateAndDeleteShareTarget | user.go:80-108 | update and delete address the same URL with the same header |
| GraphApi.MomijiAsWrittenIsNotAColor | graph.go:72-81 | the Go constant `ColorMomiji` as written (`ColorMomijiAsWritten` here), "momiji " with a trailing blank, is not one of the six colours the comment documents |
| GraphApi.ColorConstantsAreServiceColors | graph.go:72-81 | with "momiji" corrected (`ColorMomijiIntended`), the colour constants are exactly the six documented colours |
| GraphApi.GraphCreateFields | graph.go:53-63 | `graphCreate` has nine fields, none `omitempty` |
| GraphApi.GraphUpdateFields | graph.go:260-269 | `graphUpdate` has eight fields, none `omitempty` |
| GraphApi.GraphCreateEmits | graph.go:53-63 | `graphCreate` has all nine keys in field order, with the flags as JSON booleans |
| GraphApi.GraphUpdateEmits | graph.go:260-269 | `graphUpdate` has its eight keys in field order, and a nil URL list is written as null |
| GraphApi.CreateRequest | graph.go:28-51 | POST `/users/{u}/graphs` with the token header; the body is exactly the encoded object of id, name, unit, type, color, timezone, selfSufficient, isSecret, publishOptionalData in that order |
| GraphApi.GetAllRequest | graph.go:114-121 | GET `/users/{u}/graphs` with the token header and an empty body |
| GraphApi.GetSvgRequest | graph.go:158-165 | GET `/users/{u}/graphs/{id}?date={date}&mode={mode}`, with both parameters even when empty, authenticated with the package-level token |
| GraphApi.GetSvgTokenIsPackageToken | graph.go:162 | the SVG request carries the accessor's token header only when the package-level token equals it |
| GraphApi.Url | graph.go:175-177 | the page address `/users/{u}/graphs/{id}.html` |
| GraphApi.GraphsUrl | graph.go:180-182 | the page address `/users/{u}/graphs.html` |
| GraphApi.PagesFollowResources | graph.go:175-182 | each page address is the matching resource address with ".html" appended |
| GraphApi.StatsRequest | graph.go:216-223 | GET `/users/{u}/graphs/{id}/stats` with an empty header map, so no token |
| GraphApi.UpdateRequest | graph.go:236-258 | PUT `/users/{u}/graphs/{id}` with the token header; the body is exactly the encoded object of name, unit, color, timezone, purgeCacheURLs (null when nil, an array otherwise, as `GraphApi.StringList` writes a Go []string), selfSufficient, isSecret, publishOptionalData in that order |
| GraphApi.UpdateOmitsIdAndType | graph.go:260-269 | the update body never has an `id` or `type` key |
| GraphApi.DeleteRequest | graph.go:281-288 | DELETE `/users/{u}/graphs/{id}` with the token header and an empty body |
| GraphApi.GetPixelDatesRequest | graph.go:331-338 | GET `/users/{u}/graphs/{id}/pixels?from={from}&to={to}` with the period passed through unchecked |
| GraphApi.GetAll | graph.go:94-112 | the decoded definitions with the flag recomputed from the message; the zero record and the error on failure |
| GraphApi.Stats | graph.go:196-214 | the decoded statistics with the flag recomputed from the message; nil and the error on failure |
| GraphApi.GetPixelDates | graph.go:305-323 | the decoded dates with the flag recomputed from the message; the zero record and the error on failure |
| GraphApi.GetSvg | graph.go:144-156 | the raw response text, or "" and the error |
| PixelApi.PixelCreateFields | pixel.go:43-47 | `pixelCreate` has three fields, none `omitempty` |
| PixelApi.PixelUpdateFields | pixel.go:151-154 | `pixelUpdate` has two fields, none `omitempty` |
| PixelApi.CreateRequest | pixel.go:28-47 | POST `/users/{u}/graphs/{g}` with the token header; the body is exactly the encoded object of date, quantity, optionalData in that order, with optionalData always present |
| PixelApi.CreateAlwaysSendsOptionalData | pixel.go:43-47 | a pixel created with empty optional data still sends `"optionalData":""`, so the body is never the date and quantity alone |
| PixelApi.CounterHeader | pixel.go:63 | the counter header has exactly the keys contentLength = "0" and userToken |
| PixelApi.IncrementRequest | pixel.go:60-67 | PUT `…/graphs/{g}/increment` with contentLength "0" and the accessor's token, empty body |
| PixelApi.DecrementRequest | pixel.go:80-87 | PUT `…/graphs/{g}/decrement` with contentLength "0" and the package-level token, empty body |
| PixelApi.CounterHeadersAgreeOnlyForSameToken | pixel.go:63-83 | increment and decrement send the same header exactly when the package-level token equals the accessor's |
| PixelApi.GetRequest | pixel.go:110-117 | GET `/users/{u}/graphs/{g}/{date}` with the token header and an empty body |
| PixelApi.UpdateRequest | pixel.go:136-154 | PUT on the same pixel address with the token header; the body is exactly the encoded object of quantity and optionalData |
| PixelApi.DeleteRequest | pixel.go:166-173 | DELETE on the same pixel address with the token header and an empty body |
| PixelApi.PixelRequestsShareTarget | pixel.go:113-169 | get, update and delete share URL and header; get and delete differ in the method alone |
| PixelApi.UpdateOmitsDate | pixel.go:151-154 | the update body never contains the date |
| PixelApi.UpdateAlwaysSendsOptionalData | pixel.go:151-154 | a pixel updated with empty optional data still sends `"optionalData":""`, so the body is never the quantity alone |
| PixelApi.Get | pixel.go:90-108 | the decoded quantity with the flag recomputed from the message; the zero record and the error on failure |
| ChannelApi.SlackChannelFields | channel.go:58-63 | `slackChannelCreate` has four fields and only the first, id, is `omitempty` |
| ChannelApi.SlackChannelEmits | channel.go:58-63 | `slackChannelCreate` has id only when not empty, then name, type "slack", detail |
| ChannelApi.CreateSlackChannelRequest | channel.go:31-49 | POST `/users/{u}/channels` with the token header; the body is exactly the encoded object of id when not empty, name, type "slack", and the detail as url, userName, channelName, or null when nil (`ChannelApi.DetailJson`, a Go *SlackDetail) |
| ChannelApi.UpdateSlackChannelRequest | channel.go:160-177 | PUT `/users/{u}/channels/{id}` with the token header; the body is exactly the encoded object of name, type "slack" and detail, with no id |
| ChannelApi.UpdateBodyIsCreateBodyWithoutId | channel.go:160-177 | the update body is byte for byte the create body with an empty id, and has no `id` key |
| ChannelApi.GetRequest | channel.go:116-122 | GET `/users/{u}/channels` with the token header and a nil body |
| ChannelApi.DeleteRequest | channel.go:189-196 | DELETE `/users/{u}/channels/{id}` with the token header and a nil body |
| ChannelApi.UpdateAndDeleteShareTarget | channel.go:173-192 | update and delete address the same channel with the same header |
| ChannelApi.CreateChannelDefinition | channel.go:96-114 | an entry converts exactly when its type is "slack" and its detail decodes; the id, name and type are copied; any other type is rejected as unsupported, and an undecodable detail as malformed |
| ChannelApi.ConvertAll | channel.go:83-89 | the reference definition of the conversion loop; a converted listing has as many entries as the raw one |
| ChannelApi.ConvertAllConverts | channel.go:83-89 | a listing converts exactly when every entry does, and then entry by entry with length and order kept |
| ChannelApi.ConvertAllReportsFirstFailure | channel.go:84-88 | a listing that does not convert reports the failure of its first rejected entry |
| ChannelApi.ConvertAllOfConverted | channel.go:83-89 | a listing whose entries all convert is exactly the sequence of their conversions |
| ChannelApi.GetAll | channel.go:66-94 | the listing converted in order into a preallocated list, with the message copied and the flag recomputed; the zero record and the failure of the request, the decoding or the first entry that does not convert, with no partial list |
| NotificationApi.NotificationFields | notification.go:64-71 | `notificationCreate` has six fields and only the first, id, is `omitempty` |
| NotificationApi.NotificationEmits | notification.go:64-71 | `notificationCreate` has id only when not empty, then name, target, condition, threshold, channelID |
| NotificationApi.CreateRequest | notification.go:42-62 | POST `/users/{u}/graphs/{g}/notifications` with the token header; the body is exactly the encoded object of id when not empty, name, target, condition, threshold, channelID in that order |
| NotificationApi.GetRequest | notification.go:110-117 | GET on the graph's notifications with the token header and a nil body |
| NotificationApi.UpdateRequest | notification.go:130-151 | PUT `…/notifications/{id}` with the token header; the body is exactly the encoded object of the five other keys, with no id |
| NotificationApi.UpdateBodyIsCreateBodyWithoutId | notification.go:130-151 | the update body is byte for byte the create body with an empty id, and has no `id` key |
| NotificationApi.DeleteRequest | notification.go:163-170 | DELETE `…/notifications/{id}` with the token header and a nil body |
| NotificationApi.UpdateAndDeleteShareTarget | notification.go:143-168 | update and delete address the same rule with the same header |
| NotificationApi.GreaterThanIsEscaped | notification_test.go:32 | the condition ">" is written as `"\u003e"` |
| NotificationApi.LessThanIsEscaped | notification.go:20 | the condition "<" is written as `"\u003c"` |
| NotificationApi.GreaterThanMemberText | notification_test.go:32 | the member of the condition ">" is written `"condition":"\u003e"` |
| NotificationApi.GreaterThanCreateIsEscaped | notification.go:42-62 | a create request with the condition ">" carries `"condition":"\u003e"` in its body, and no raw `>` anywhere |
| NotificationApi.GreaterThanUpdateIsEscaped | notification.go:130-151 | an update request with the condition ">" carries `"condition":"\u003e"` in its body, and no raw `>` anywhere |
| NotificationApi.GetAll | notification.go:74-92 | the decoded rules with the flag recomputed from the message; the zero record and the error on failure |
| WebhookApi.WebhookCreateFields | webhook.go:58-61 | `webhookCreate` has two fields, none `omitempty` |
| WebhookApi.CreateRequest | webhook.go:43-61 | POST `/users/{u}/webhooks` with the token header; the body is exactly the encoded object of graphID, then type |
| WebhookApi.CreateBodyOfTheTests | webhook_test.go:31 | the create request for graph "graph-id" and mode "increment" has exactly the body `{"graphID":"graph-id","type":"increment"}` |
| WebhookApi.GetAllRequest | webhook.go:97-104 | GET `/users/{u}/webhooks` with the token header and an empty body |
| WebhookApi.DeleteRequest | webhook.go:116-123 | DELETE `/users/{u}/webhooks/{hash}` with the token header and an empty body |
| WebhookApi.InvokeRequest | webhook.go:136-143 | POST `/users/{u}/webhooks/{hash}` whose only header is contentLength "0", with no token, and an empty body |
| WebhookApi.DeleteAndInvokeShareTarget | webhook.go:116-143 | delete and invoke share URL and body, and differ in method and header |
| WebhookApi.Create | webhook.go:18-35 | the decoded hash and result exactly as decoded, with no success recomputation; the zero record and the error on failure |
| WebhookApi.CreateKeepsDecodedFlag | webhook.go:29-34 | create keeps the service's flag, and it agrees with the settled form exactly when that flag matched the message |
| WebhookApi.GetAll | webhook.go:64-82 | the decoded webhooks with the flag recomputed from the message; the zero record and the error on failure |
| ClientApi.Client.constructor | client.go:10-12 | a new client stores the name and token as given |
| ClientApi.Client.User | client.go:19-21 | the account accessor carries the client's name and token |
| ClientApi.Client.Channel | client.go:38-40 | the channel accessor carries only the client's name and token |
| ClientApi.Client.Graph | client.go:43-45 | the graph accessor carries the client's name and token and the given graph |
| ClientApi.Client.Pixel | client.go:48-50 | the pixel accessor carries the client's name and token and the given graph |
| ClientApi.Client.Notification | client.go:53-55 | the notification accessor carries the client's name and token and the given graph |
| ClientApi.Client.Webhook | client.go:58-60 | the webhook accessor carries only the client's name and token |
| ClientApi.Client.CreateUser | client.go:15-17 | sends the create request for the client's current name and token |
| ClientApi.Client.UpdateUser | client.go:24-30 | sends the update request with the old token; the token becomes the new one exactly when there was no error and the result reports success, and otherwise stays; the name never changes |
| ClientApi.Client.DeleteUser | client.go:33-35 | sends the delete request for the client's current name and token |
| ClientApi.TokenReplacementScenario | user_test.go:87-98 | after a successful replacement the client and its accessors carry "newToken" |
| ClientApi.FailedReplacementScenario | user_test.go:100-124 | after a refused or failed replacement the client keeps its old token |

## Left out

- HTTP transport: `doRequest`, `doRequestAndParseResponse`, `mustDoRequest` and the
  `requestParameter` type are not part of this model. Their outcome is a function parameter.
  This includes the split between a 404 and other non-2xx answers, and the meaning of "success"
  inside `doRequestAndParseResponse`.
- The operations that only pass a descriptor to `doRequestAndParseResponse` are represented by
  their descriptor builders. These are the Create, Update, Delete, Increment, Decrement and
  Invoke methods of the accessors. The client's account operations are kept as methods.
- `json.Unmarshal`: responses are taken already decoded (`Exchange`). A raw channel entry
  arrives with its detail decoded as a Slack detail, or `None` when that decoding fails.
- The error branch after `json.Marshal` in every builder is left out. Marshalling structs of
  strings, booleans, a string slice and a struct pointer cannot fail, so the builders return the
  descriptor directly.
- Error messages (`errors.Wrapf` text) are replaced by the `Failure` kind.
- `Stats.AvgQuantity` (float64) is left out. Quantities are opaque strings.
- The values of the API base URL, of the header names `userToken` and `contentLength`, and of
  the package-level `token`. They are defined outside the modelled files. The header names are
  assumed distinct.
- Request bodies are modelled as text (sequences of Unicode scalar values). Their UTF-8
  encoding into bytes is left out.
- Go escapes `\b` and `\f` as `\u0008` and `\u000c` (the short forms appeared only in Go 1.22).
  The model follows the `\u` form. Invalid UTF-8 cannot occur in Dafny strings.
- Pointer identity of the returned records (`&Result{}` and similar) is modelled by value.
- Json.EscapeChar: its own contract does not give the escape of each character. The exact
  escapes are stated by `Json.HtmlCharactersEscaped` (`<`, `>`, `&`),
  `Json.ShortAndUnicodeEscapes` (quote, backslash, `\n`, `\r`, `\t`, U+0000, U+001F,
  U+2028, U+2029) and `Json.EscapePlain` (characters written unchanged). It also gives the
  general rule for every control character without a short form.
- The longer literal byte strings of the tests (for example `user_test.go:26,80`,
  `graph_test.go:32`) are not proved as string literals: evaluating the encoder on those
  records runs out of the solver's resources. Each builder's contract states its body as
  `Encode` of an explicit member list, which fixes the text for every input. Two test vectors
  are proved as literal text: the webhook create body of `webhook_test.go:31`
  (`WebhookApi.CreateBodyOfTheTests`) and the escaped `>` of the notification tests
  (`NotificationApi.GreaterThanCreateIsEscaped`).

## Findings

| source | as written | input that shows it | evidently intended | confidence | as-written member | corrected member |
|---|---|---|---|---|---|---|
| graph.go:76 | `ColorMomiji = "momiji "`, with a trailing blank | `Graph.Create(…, ColorMomiji, …)` sends `"color":"momiji "` | `"momiji"`, the colour the comment at graph.go:73 lists | not executed; high | GraphApi.MomijiAsWrittenIsNotAColor | GraphApi.ColorConstantsAreServiceColors |

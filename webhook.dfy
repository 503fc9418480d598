/**
 * The webhook endpoints (webhook.go): the requests that create, list, delete and invoke the
 * webhooks of an account, and what `Create` and `GetAll` do with the decoded response.
 */
module WebhookApi {
  import opened Wrappers
  import opened Rest
  import opened Json

  /** The webhook accessor: the account and its token. */
  datatype Webhook = Webhook(userName: string, token: string)

  /** The request record `webhookCreate`; no field is `omitempty`. */
  function WebhookCreateFields(graphID: string, selfSufficient: string): (fs: seq<Field>)
    ensures |fs| == 2
    ensures forall f | f in fs :: !f.omitEmpty
  {
    [ Field("graphID", JString(graphID), false),
      Field("type", JString(selfSufficient), false) ]
  }

  /** The path of the account's webhooks. */
  function WebhooksPath(w: Webhook): string {
    "/users/" + w.userName + "/webhooks"
  }

  /** Creating a webhook: POST on the account's webhooks, authenticated, with a body holding the
      graph id and then the counting mode under the key `type`. */
  function CreateRequest(w: Webhook, graphID: string, selfSufficient: string): (r: Request)
    ensures r.httpMethod == Post && r.url == ApiUrl("/users/" + w.userName + "/webhooks")
    ensures r.header == TokenHeader(w.token)
    ensures r.body == Bytes(Encode(JObject([Member("graphID", JString(graphID)), Member("type", JString(selfSufficient))])))
  {
    var fs := WebhookCreateFields(graphID, selfSufficient);
    KeptUnrolled(fs);
    assert Kept(fs[1..]) == [Member("type", JString(selfSufficient))];
    assert Kept(fs) == [Member("graphID", JString(graphID)), Member("type", JString(selfSufficient))];
    Request(Post, ApiUrl(WebhooksPath(w)), TokenHeader(w.token), JsonBody(fs))
  }

  /** The two members of the create body of the Go tests (webhook_test.go), written as they are. */
  lemma TestMembersText()
    ensures EncodeMember(Member("graphID", JString("graph-id"))) == "\"" + "graphID" + "\":\"" + "graph-id" + "\""
    ensures EncodeMember(Member("type", JString("increment"))) == "\"" + "type" + "\":\"" + "increment" + "\""
  {
    assert AllPlain("graphID") && AllPlain("graph-id") && AllPlain("type") && AllPlain("increment");
    PlainStringMember("graphID", "graph-id");
    PlainStringMember("type", "increment");
  }

  /** The text of that body, piece by piece, is the literal the tests compare against. */
  lemma TestBodyPieces()
    ensures "{" + ("\"" + "graphID" + "\":\"" + "graph-id" + "\"") + "," + ("\"" + "type" + "\":\"" + "increment" + "\"") + "}" ==
            "{\"graphID\":\"graph-id\",\"type\":\"increment\"}"
  {
  }

  /** The create request of the Go tests carries exactly the body
      `{"graphID":"graph-id","type":"increment"}` that webhook_test.go expects. */
  lemma CreateBodyOfTheTests()
    ensures CreateRequest(Webhook("name", "token"), "graph-id", "increment").body ==
            Bytes("{\"graphID\":\"graph-id\",\"type\":\"increment\"}")
  {
    var first, second := Member("graphID", JString("graph-id")), Member("type", JString("increment"));
    EncodeTwoMembers(first, second);
    TestMembersText();
    TestBodyPieces();
  }

  /** Listing the webhooks: GET on the account's webhooks, authenticated, empty body. */
  function GetAllRequest(w: Webhook): (r: Request)
    ensures r.httpMethod == Get && r.url == ApiUrl("/users/" + w.userName + "/webhooks")
    ensures r.header == TokenHeader(w.token) && r.body == Bytes("")
  {
    Request(Get, ApiUrl(WebhooksPath(w)), TokenHeader(w.token), Bytes(""))
  }

  /** Deleting a webhook: DELETE on the webhook's hash, authenticated, empty body. */
  function DeleteRequest(w: Webhook, webhookHash: string): (r: Request)
    ensures r.httpMethod == Delete && r.url == ApiUrl("/users/" + w.userName + "/webhooks/" + webhookHash)
    ensures r.header == TokenHeader(w.token) && r.body == Bytes("")
  {
    Request(Delete, ApiUrl(WebhooksPath(w) + "/" + webhookHash), TokenHeader(w.token), Bytes(""))
  }

  /** Invoking a webhook: POST on the webhook's hash whose only header is a zero content
      length; the hash alone authorises it, so no token is sent. */
  function InvokeRequest(w: Webhook, webhookHash: string): (r: Request)
    ensures r.httpMethod == Post && r.url == ApiUrl("/users/" + w.userName + "/webhooks/" + webhookHash)
    ensures r.header == map[ContentLength := "0"] && UserToken !in r.header
    ensures r.body == Bytes("")
  {
    Request(Post, ApiUrl(WebhooksPath(w) + "/" + webhookHash), map[ContentLength := "0"], Bytes(""))
  }

  /** Delete and invoke address the same webhook and differ in the method and the header only. */
  lemma DeleteAndInvokeShareTarget(w: Webhook, webhookHash: string)
    ensures DeleteRequest(w, webhookHash).url == InvokeRequest(w, webhookHash).url
    ensures DeleteRequest(w, webhookHash).body == InvokeRequest(w, webhookHash).body
    ensures DeleteRequest(w, webhookHash).httpMethod != InvokeRequest(w, webhookHash).httpMethod
    ensures DeleteRequest(w, webhookHash).header != InvokeRequest(w, webhookHash).header
  {
    assert UserToken in DeleteRequest(w, webhookHash).header;
  }

  /** One entry of `WebhookDefinitions`. */
  datatype WebhookDefinition = WebhookDefinition(webhookHash: string, graphID: string, selfSufficient: string)

  /** Creating a webhook: the hash and the result exactly as decoded from the create request,
      with the service's own success flag kept; the zero record and the error when the request
      or the decoding failed. */
  function Create(w: Webhook, graphID: string, selfSufficient: string, fetch: Request -> Exchange<Envelope<string>>): (r: Reply<Envelope<string>>)
    ensures fetch(CreateRequest(w, graphID, selfSufficient)).Received? ==>
      r == Reply(fetch(CreateRequest(w, graphID, selfSufficient)).value, None)
    ensures fetch(CreateRequest(w, graphID, selfSufficient)).Failed? ==>
      r == Reply(Envelope("", EmptyResult), Some(fetch(CreateRequest(w, graphID, selfSufficient)).failure))
  {
    Passed(fetch(CreateRequest(w, graphID, selfSufficient)), "")
  }

  /** A created webhook whose decoded success flag contradicts its message is returned with the
      contradiction, where the listing would have recomputed the flag. */
  lemma CreateKeepsDecodedFlag(w: Webhook, graphID: string, selfSufficient: string, fetch: Request -> Exchange<Envelope<string>>)
    requires fetch(CreateRequest(w, graphID, selfSufficient)).Received?
    ensures Create(w, graphID, selfSufficient, fetch).value.result == fetch(CreateRequest(w, graphID, selfSufficient)).value.result
    ensures Create(w, graphID, selfSufficient, fetch) == Settled(fetch(CreateRequest(w, graphID, selfSufficient)), "") <==>
      (fetch(CreateRequest(w, graphID, selfSufficient)).value.result.isSuccess <==>
       fetch(CreateRequest(w, graphID, selfSufficient)).value.result.message == "")
  {
    SettledAgreesWithPassed(fetch(CreateRequest(w, graphID, selfSufficient)), "");
  }

  /** Listing the webhooks: the definitions decoded from the listing request with the success
      flag recomputed from the message; the zero record and the error when the request or the
      decoding failed. */
  function GetAll(w: Webhook, fetch: Request -> Exchange<Envelope<seq<WebhookDefinition>>>): (r: Reply<Envelope<seq<WebhookDefinition>>>)
    ensures SettledFrom(fetch(GetAllRequest(w)), [], r)
  {
    Settled(fetch(GetAllRequest(w)), [])
  }
}

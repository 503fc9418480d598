/**
 * The notification endpoints (notification.go): the requests that create, list, update and
 * delete the notification rules of a graph, and the success rule applied to a decoded listing.
 */
module NotificationApi {
  import opened Wrappers
  import opened Rest
  import opened Json

  /** The notification accessor: the account, its token, and the graph whose rules it addresses. */
  datatype Notification = Notification(userName: string, token: string, graphID: string)

  /** The only notification target. */
  const TargetQuantity := "quantity"

  /** The conditions a rule can test. */
  const ConditionGreaterThan := ">"
  const ConditionEqual := "="
  const ConditionLessThan := "<"
  const ConditionMultipleOf := "multipleOf"

  /** The request record `notificationCreate`, which `notificationUpdate` shares; only the id is
      `omitempty`. */
  function NotificationFields(id: string, name: string, target: string, condition: string, threshold: string, channelID: string): (fs: seq<Field>)
    ensures |fs| == 6 && fs[0].key == "id" && fs[0].omitEmpty
    ensures forall i | 1 <= i < |fs| :: !fs[i].omitEmpty
  {
    [ Field("id", JString(id), true),
      Field("name", JString(name), false),
      Field("target", JString(target), false),
      Field("condition", JString(condition), false),
      Field("threshold", JString(threshold), false),
      Field("channelID", JString(channelID), false) ]
  }

  /** The `id` member: present exactly when the id is not empty. */
  function IdMember(id: string): seq<Member> {
    if id == "" then [] else [Member("id", JString(id))]
  }

  /** The record is written as the id unless it is empty, then the five other keys in field order. */
  lemma NotificationEmits(id: string, name: string, target: string, condition: string, threshold: string, channelID: string)
    ensures Kept(NotificationFields(id, name, target, condition, threshold, channelID)) ==
      IdMember(id) +
      [ Member("name", JString(name)),
        Member("target", JString(target)),
        Member("condition", JString(condition)),
        Member("threshold", JString(threshold)),
        Member("channelID", JString(channelID)) ]
  {
    var fs := NotificationFields(id, name, target, condition, threshold, channelID);
    KeptUnrolled(fs);
    assert Kept(fs[5..]) == [Member("channelID", JString(channelID))];
    assert Kept(fs[4..]) == [Member("threshold", JString(threshold))] + Kept(fs[5..]);
    assert Kept(fs[3..]) == [Member("condition", JString(condition))] + Kept(fs[4..]);
    assert Kept(fs[2..]) == [Member("target", JString(target))] + Kept(fs[3..]);
    assert Kept(fs[1..]) == [Member("name", JString(name))] + Kept(fs[2..]);
  }

  /** The path of the graph's notification rules. */
  function NotificationsPath(n: Notification): string {
    "/users/" + n.userName + "/graphs/" + n.graphID + "/notifications"
  }

  /** Creating a rule: POST on the graph's rules, authenticated, with a body holding the id
      (left out when empty), name, target, condition, threshold and channel id in that order. */
  function CreateRequest(n: Notification, id: string, name: string, target: string, condition: string, threshold: string, channelID: string): (r: Request)
    ensures r.httpMethod == Post && r.url == ApiUrl("/users/" + n.userName + "/graphs/" + n.graphID + "/notifications")
    ensures r.header == TokenHeader(n.token)
    ensures r.body == Bytes(Encode(JObject(
      IdMember(id) +
      [ Member("name", JString(name)),
        Member("target", JString(target)),
        Member("condition", JString(condition)),
        Member("threshold", JString(threshold)),
        Member("channelID", JString(channelID)) ])))
  {
    var fs := NotificationFields(id, name, target, condition, threshold, channelID);
    NotificationEmits(id, name, target, condition, threshold, channelID);
    Request(Post, ApiUrl(NotificationsPath(n)), TokenHeader(n.token), JsonBody(fs))
  }

  /** Listing the rules: GET on the graph's rules, authenticated, with a nil body. */
  function GetRequest(n: Notification): (r: Request)
    ensures r.httpMethod == Get && r.url == ApiUrl("/users/" + n.userName + "/graphs/" + n.graphID + "/notifications")
    ensures r.header == TokenHeader(n.token) && r.body == NilBody
  {
    Request(Get, ApiUrl(NotificationsPath(n)), TokenHeader(n.token), NilBody)
  }

  /** Updating a rule: PUT on the rule, authenticated; the id is in the address and never in
      the body, which holds the five other keys in field order. */
  function UpdateRequest(n: Notification, id: string, name: string, target: string, condition: string, threshold: string, channelID: string): (r: Request)
    ensures r.httpMethod == Put && r.url == ApiUrl("/users/" + n.userName + "/graphs/" + n.graphID + "/notifications/" + id)
    ensures r.header == TokenHeader(n.token)
    ensures r.body == Bytes(Encode(JObject(
      [ Member("name", JString(name)),
        Member("target", JString(target)),
        Member("condition", JString(condition)),
        Member("threshold", JString(threshold)),
        Member("channelID", JString(channelID)) ])))
  {
    var fs := NotificationFields("", name, target, condition, threshold, channelID);
    NotificationEmits("", name, target, condition, threshold, channelID);
    assert IdMember("") == [];
    assert Kept(fs) ==
      [ Member("name", JString(name)),
        Member("target", JString(target)),
        Member("condition", JString(condition)),
        Member("threshold", JString(threshold)),
        Member("channelID", JString(channelID)) ];
    Request(Put, ApiUrl(NotificationsPath(n) + "/" + id), TokenHeader(n.token), JsonBody(fs))
  }

  /** The update body is the create body of a rule with an empty id: the same bytes. */
  lemma UpdateBodyIsCreateBodyWithoutId(n: Notification, id: string, name: string, target: string, condition: string, threshold: string, channelID: string)
    ensures UpdateRequest(n, id, name, target, condition, threshold, channelID).body ==
            CreateRequest(n, "", name, target, condition, threshold, channelID).body
    ensures var b := BodyJson(UpdateRequest(n, id, name, target, condition, threshold, channelID).body);
      b.Some? && b.value.JObject? && forall m | m in b.value.members :: m.key != "id"
  {
    ObjectBodyReads(
      [ Member("name", JString(name)),
        Member("target", JString(target)),
        Member("condition", JString(condition)),
        Member("threshold", JString(threshold)),
        Member("channelID", JString(channelID)) ]);
  }

  /** Deleting a rule: DELETE on the rule, authenticated, with a nil body. */
  function DeleteRequest(n: Notification, id: string): (r: Request)
    ensures r.httpMethod == Delete && r.url == ApiUrl("/users/" + n.userName + "/graphs/" + n.graphID + "/notifications/" + id)
    ensures r.header == TokenHeader(n.token) && r.body == NilBody
  {
    Request(Delete, ApiUrl(NotificationsPath(n) + "/" + id), TokenHeader(n.token), NilBody)
  }

  /** Update and delete address the same rule with the same header. */
  lemma UpdateAndDeleteShareTarget(n: Notification, id: string, name: string, target: string, condition: string, threshold: string, channelID: string)
    ensures UpdateRequest(n, id, name, target, condition, threshold, channelID).url == DeleteRequest(n, id).url
    ensures UpdateRequest(n, id, name, target, condition, threshold, channelID).header == DeleteRequest(n, id).header
  {
  }

  /** The condition "greater than" is written in a body as the string "\u003e": the character
      > never appears raw. */
  lemma GreaterThanIsEscaped()
    ensures Encode(JString(ConditionGreaterThan)) == "\"\\u003e\""
  {
  }

  /** The condition "less than" is written in a body as the string "\u003c". */
  lemma LessThanIsEscaped()
    ensures Encode(JString(ConditionLessThan)) == "\"\\u003c\""
  {
  }

  /** The key `condition` needs no escaping. */
  lemma ConditionKeyText()
    ensures Quote("condition") == "\"condition\""
  {
    assert AllPlain("condition");
    EscapePlain("condition");
  }

  /** The member of the condition "greater than", as written: the key, a colon, and the
      escaped condition. */
  lemma GreaterThanMemberText()
    ensures EncodeMember(Member("condition", JString(ConditionGreaterThan))) == "\"condition\"" + ":" + "\"\\u003e\""
  {
    ConditionKeyText();
    GreaterThanIsEscaped();
  }

  /** A rule whose condition is "greater than" is created with the member
      `"condition":"\u003e"`, and its body holds no raw > anywhere. */
  lemma GreaterThanCreateIsEscaped(n: Notification, id: string, name: string, target: string, threshold: string, channelID: string)
    ensures var t := CreateRequest(n, id, name, target, ConditionGreaterThan, threshold, channelID).body.text;
      Occurs("\"condition\"" + ":" + "\"\\u003e\"", t) && '>' !in t
  {
    var ms := IdMember(id) +
      [ Member("name", JString(name)),
        Member("target", JString(target)),
        Member("condition", JString(ConditionGreaterThan)),
        Member("threshold", JString(threshold)),
        Member("channelID", JString(channelID)) ];
    GreaterThanMemberText();
    MemberWritten(ms, |IdMember(id)| + 2);
    EncodeSafe(JObject(ms));
  }

  /** The same for the update of such a rule. */
  lemma GreaterThanUpdateIsEscaped(n: Notification, id: string, name: string, target: string, threshold: string, channelID: string)
    ensures var t := UpdateRequest(n, id, name, target, ConditionGreaterThan, threshold, channelID).body.text;
      Occurs("\"condition\"" + ":" + "\"\\u003e\"", t) && '>' !in t
  {
    var ms :=
      [ Member("name", JString(name)),
        Member("target", JString(target)),
        Member("condition", JString(ConditionGreaterThan)),
        Member("threshold", JString(threshold)),
        Member("channelID", JString(channelID)) ];
    GreaterThanMemberText();
    MemberWritten(ms, 2);
    EncodeSafe(JObject(ms));
  }

  /** One entry of `NotificationDefinitions`. */
  datatype NotificationDefinition = NotificationDefinition(
    id: string, name: string, target: string, condition: string, threshold: string, channelID: string)

  /** Listing the rules: the definitions decoded from the listing request with the success flag
      recomputed from the message; the zero record and the error when the request or the
      decoding failed. */
  function GetAll(n: Notification, fetch: Request -> Exchange<Envelope<seq<NotificationDefinition>>>): (r: Reply<Envelope<seq<NotificationDefinition>>>)
    ensures SettledFrom(fetch(GetRequest(n)), [], r)
  {
    Settled(fetch(GetRequest(n)), [])
  }
}

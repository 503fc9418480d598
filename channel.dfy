/**
 * The notification channel endpoints (channel.go): the requests that create, list, update and
 * delete the Slack channels of an account, and the conversion of a decoded listing, which
 * dispatches on each channel's type and fails as a whole on the first entry it cannot convert.
 */
module ChannelApi {
  import opened Wrappers
  import opened Rest
  import opened Json

  /** The channel accessor: the account and its token. */
  datatype Channel = Channel(userName: string, token: string)

  /** The only channel type the client knows. */
  const SlackChannel := "slack"

  /** The settings of a Slack channel. */
  datatype SlackDetail = SlackDetail(url: string, userName: string, channelName: string)

  /** A *SlackDetail as JSON: null when nil, otherwise the object of its three fields in order. */
  function DetailJson(detail: Option<SlackDetail>): Json {
    match detail
    case None => JNull
    case Some(d) => JObject([Member("url", JString(d.url)), Member("userName", JString(d.userName)), Member("channelName", JString(d.channelName))])
  }

  /** The request record `slackChannelCreate`, which the update shares; only the id is `omitempty`. */
  function SlackChannelFields(id: string, name: string, detail: Option<SlackDetail>): (fs: seq<Field>)
    ensures |fs| == 4 && fs[0].key == "id" && fs[0].omitEmpty
    ensures forall i | 1 <= i < |fs| :: !fs[i].omitEmpty
  {
    [ Field("id", JString(id), true),
      Field("name", JString(name), false),
      Field("type", JString(SlackChannel), false),
      Field("detail", DetailJson(detail), false) ]
  }

  /** The `id` member: present exactly when the id is not empty. */
  function IdMember(id: string): seq<Member> {
    if id == "" then [] else [Member("id", JString(id))]
  }

  /** The record is written as the id unless it is empty, the name, the type "slack", and the
      detail. */
  lemma SlackChannelEmits(id: string, name: string, detail: Option<SlackDetail>)
    ensures Kept(SlackChannelFields(id, name, detail)) ==
      IdMember(id) + [Member("name", JString(name)), Member("type", JString("slack")), Member("detail", DetailJson(detail))]
  {
    var fs := SlackChannelFields(id, name, detail);
    KeptUnrolled(fs);
    assert Kept(fs[3..]) == [Member("detail", DetailJson(detail))];
    assert Kept(fs[2..]) == [Member("type", JString("slack"))] + Kept(fs[3..]);
    assert Kept(fs[1..]) == [Member("name", JString(name))] + Kept(fs[2..]);
  }

  /** The path of the account's channels. */
  function ChannelsPath(c: Channel): string {
    "/users/" + c.userName + "/channels"
  }

  /** Creating a Slack channel: POST on the account's channels, authenticated, with a body
      holding the id (left out when empty), the name, the type "slack" and the detail, in that
      order; a nil detail is written as null. */
  function CreateSlackChannelRequest(c: Channel, id: string, name: string, detail: Option<SlackDetail>): (r: Request)
    ensures r.httpMethod == Post && r.url == ApiUrl("/users/" + c.userName + "/channels")
    ensures r.header == TokenHeader(c.token)
    ensures r.body == Bytes(Encode(JObject(
      IdMember(id) + [Member("name", JString(name)), Member("type", JString("slack")), Member("detail", DetailJson(detail))])))
  {
    var fs := SlackChannelFields(id, name, detail);
    SlackChannelEmits(id, name, detail);
    Request(Post, ApiUrl(ChannelsPath(c)), TokenHeader(c.token), JsonBody(fs))
  }

  /** Updating a Slack channel: PUT on the channel, authenticated; the id is in the address and
      never in the body, which holds the name, the type "slack" and the detail. */
  function UpdateSlackChannelRequest(c: Channel, id: string, name: string, detail: Option<SlackDetail>): (r: Request)
    ensures r.httpMethod == Put && r.url == ApiUrl("/users/" + c.userName + "/channels/" + id)
    ensures r.header == TokenHeader(c.token)
    ensures r.body == Bytes(Encode(JObject(
      [Member("name", JString(name)), Member("type", JString("slack")), Member("detail", DetailJson(detail))])))
  {
    var fs := SlackChannelFields("", name, detail);
    SlackChannelEmits("", name, detail);
    assert IdMember("") == [];
    assert Kept(fs) == [Member("name", JString(name)), Member("type", JString("slack")), Member("detail", DetailJson(detail))];
    Request(Put, ApiUrl(ChannelsPath(c) + "/" + id), TokenHeader(c.token), JsonBody(fs))
  }

  /** The update body is the create body of a channel with an empty id: the same bytes. */
  lemma UpdateBodyIsCreateBodyWithoutId(c: Channel, id: string, name: string, detail: Option<SlackDetail>)
    ensures UpdateSlackChannelRequest(c, id, name, detail).body == CreateSlackChannelRequest(c, "", name, detail).body
    ensures var b := BodyJson(UpdateSlackChannelRequest(c, id, name, detail).body);
      b.Some? && b.value.JObject? && forall m | m in b.value.members :: m.key != "id"
  {
    ObjectBodyReads([Member("name", JString(name)), Member("type", JString("slack")), Member("detail", DetailJson(detail))]);
  }

  /** Listing the channels: GET on the account's channels, authenticated, with a nil body. */
  function GetRequest(c: Channel): (r: Request)
    ensures r.httpMethod == Get && r.url == ApiUrl("/users/" + c.userName + "/channels")
    ensures r.header == TokenHeader(c.token) && r.body == NilBody
  {
    Request(Get, ApiUrl(ChannelsPath(c)), TokenHeader(c.token), NilBody)
  }

  /** Deleting a channel: DELETE on the channel, authenticated, with a nil body. */
  function DeleteRequest(c: Channel, id: string): (r: Request)
    ensures r.httpMethod == Delete && r.url == ApiUrl("/users/" + c.userName + "/channels/" + id)
    ensures r.header == TokenHeader(c.token) && r.body == NilBody
  {
    Request(Delete, ApiUrl(ChannelsPath(c) + "/" + id), TokenHeader(c.token), NilBody)
  }

  /** Update and delete address the same channel with the same header. */
  lemma UpdateAndDeleteShareTarget(c: Channel, id: string, name: string, detail: Option<SlackDetail>)
    ensures UpdateSlackChannelRequest(c, id, name, detail).url == DeleteRequest(c, id).url
    ensures UpdateSlackChannelRequest(c, id, name, detail).header == DeleteRequest(c, id).header
  {
  }

  // ---------------------------------------------------------------------------------------------
  // Converting a decoded listing

  /** One decoded entry of `rawChannelDefinitions`. Its detail is kept undecoded by the source
      and decoded only for a Slack channel; `slackDetail` is what that decoding yields, None when
      the detail is not a Slack detail. */
  datatype RawChannelDefinition = RawChannelDefinition(id: string, name: string, channelType: string, slackDetail: Option<SlackDetail>)

  /** One entry of `ChannelDefinitions`; its detail is nil in the zero value. */
  datatype ChannelDefinition = ChannelDefinition(id: string, name: string, channelType: string, detail: Option<SlackDetail>)

  /** The zero value `ChannelDefinition{}`. */
  const ZeroDefinition := ChannelDefinition("", "", "", None)

  /** The outcome of converting: a value, or the failure that stopped the conversion. */
  datatype Conversion<T> = Converted(value: T) | Rejected(failure: Failure)

  /** Converting one entry: a Slack channel keeps its id, name and type and gains its decoded
      detail; a Slack channel whose detail does not decode, or a channel of any other type, is
      rejected. */
  function CreateChannelDefinition(raw: RawChannelDefinition): (r: Conversion<ChannelDefinition>)
    ensures r.Converted? <==> raw.channelType == "slack" && raw.slackDetail.Some?
    ensures r.Converted? ==> r.value == ChannelDefinition(raw.id, raw.name, raw.channelType, raw.slackDetail)
    ensures raw.channelType != "slack" ==> r == Rejected(UnsupportedType(raw.channelType))
    ensures raw.channelType == "slack" && raw.slackDetail.None? ==> r == Rejected(MalformedJson)
  {
    if raw.channelType == SlackChannel then
      match raw.slackDetail
      case Some(d) => Converted(ChannelDefinition(raw.id, raw.name, raw.channelType, Some(d)))
      case None => Rejected(MalformedJson)
    else
      Rejected(UnsupportedType(raw.channelType))
  }

  /** Converting a whole listing, entry by entry in order: every entry converted, or the
      failure of the first entry that could not be. */
  function ConvertAll(raws: seq<RawChannelDefinition>): (r: Conversion<seq<ChannelDefinition>>)
    ensures r.Converted? ==> |r.value| == |raws|
  {
    if raws == [] then Converted([])
    else match CreateChannelDefinition(raws[0])
      case Rejected(f) => Rejected(f)
      case Converted(d) =>
        match ConvertAll(raws[1..])
        case Rejected(f) => Rejected(f)
        case Converted(ds) => Converted([d] + ds)
  }

  /** A listing converts exactly when every entry does, and then it converts entry by entry:
      same length, same order, id, name and type copied. */
  lemma {:induction false} ConvertAllConverts(raws: seq<RawChannelDefinition>)
    ensures ConvertAll(raws).Converted? <==> forall i | 0 <= i < |raws| :: CreateChannelDefinition(raws[i]).Converted?
    ensures ConvertAll(raws).Converted? ==>
      && |ConvertAll(raws).value| == |raws|
      && forall i | 0 <= i < |raws| :: ConvertAll(raws).value[i] == CreateChannelDefinition(raws[i]).value
  {
    if raws != [] {
      ConvertAllConverts(raws[1..]);
      if forall i | 0 <= i < |raws| :: CreateChannelDefinition(raws[i]).Converted? {
        forall i | 0 <= i < |raws| - 1
          ensures CreateChannelDefinition(raws[1..][i]).Converted?
        {
          assert raws[1..][i] == raws[i + 1];
        }
      }
      if ConvertAll(raws).Converted? {
        forall i | 1 <= i < |raws|
          ensures CreateChannelDefinition(raws[i]).Converted?
          ensures ConvertAll(raws).value[i] == CreateChannelDefinition(raws[i]).value
        {
          assert raws[i] == raws[1..][i - 1];
        }
      }
    }
  }

  /** A listing that does not convert reports the failure of its first entry that does not. */
  lemma {:induction false} ConvertAllReportsFirstFailure(raws: seq<RawChannelDefinition>, k: nat)
    requires k < |raws|
    requires forall i | 0 <= i < k :: CreateChannelDefinition(raws[i]).Converted?
    requires CreateChannelDefinition(raws[k]).Rejected?
    ensures ConvertAll(raws) == Rejected(CreateChannelDefinition(raws[k]).failure)
  {
    if k > 0 {
      forall i | 0 <= i < k - 1
        ensures CreateChannelDefinition(raws[1..][i]).Converted?
      {
        assert raws[1..][i] == raws[i + 1];
      }
      assert raws[1..][k - 1] == raws[k];
      ConvertAllReportsFirstFailure(raws[1..], k - 1);
    }
  }

  /** A listing whose entries all convert is the entry-by-entry conversion. */
  lemma ConvertAllOfConverted(raws: seq<RawChannelDefinition>, defs: seq<ChannelDefinition>)
    requires |defs| == |raws|
    requires forall i | 0 <= i < |raws| :: CreateChannelDefinition(raws[i]) == Converted(defs[i])
    ensures ConvertAll(raws) == Converted(defs)
  {
    ConvertAllConverts(raws);
  }

  /** Listing the channels: the decoded entries of the listing request are converted into a
      preallocated list, one by one in order. The first entry that cannot be converted ends the
      operation with the zero record and that entry's failure, with no partial list; a failed
      request or decoding gives the zero record and its failure. Otherwise the list holds every
      converted entry, and the message is copied with the success flag recomputed from it. */
  method GetAll(c: Channel, fetch: Request -> Exchange<Envelope<seq<RawChannelDefinition>>>)
    returns (r: Reply<Envelope<seq<ChannelDefinition>>>)
    ensures fetch(GetRequest(c)).Failed? ==>
      r == Reply(Envelope([], EmptyResult), Some(fetch(GetRequest(c)).failure))
    ensures fetch(GetRequest(c)).Received? ==>
      var raw := fetch(GetRequest(c)).value;
      match ConvertAll(raw.payload)
      case Converted(defs) =>
        && r.err == None
        && r.value.payload == defs
        && r.value.result.message == raw.result.message
        && (r.value.result.isSuccess <==> raw.result.message == "")
      case Rejected(f) => r == Reply(Envelope([], EmptyResult), Some(f))
  {
    var ex := fetch(GetRequest(c));
    if ex.Failed? {
      return Reply(Envelope([], EmptyResult), Some(ex.failure));
    }
    var raws := ex.value.payload;
    var channels := new ChannelDefinition[|raws|](_ => ZeroDefinition);
    var i := 0;
    while i < |raws|
      invariant 0 <= i <= |raws|
      invariant forall j | 0 <= j < i :: CreateChannelDefinition(raws[j]) == Converted(channels[j])
    {
      var d := CreateChannelDefinition(raws[i]);
      if d.Rejected? {
        ConvertAllReportsFirstFailure(raws, i);
        return Reply(Envelope([], EmptyResult), Some(d.failure));
      }
      channels[i] := d.value;
      i := i + 1;
    }
    ConvertAllOfConverted(raws, channels[..]);
    r := Reply(Envelope(channels[..], Settle(ex.value.result)), None);
  }
}

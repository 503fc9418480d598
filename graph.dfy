/**
 * The graph endpoints (graph.go): the requests that create, list, update and delete the graph
 * definitions of an account, fetch a graph's SVG, statistics and pixel dates, the two HTML page
 * addresses, and the success rule applied to what the listing operations decode.
 */
module GraphApi {
  import opened Wrappers
  import opened Rest
  import opened Json

  /** The graph accessor: the account, its token, and the graph it addresses. */
  datatype Graph = Graph(userName: string, token: string, graphID: string)

  /** The quantity types the service supports. */
  const TypeInt := "int"
  const TypeFloat := "float"

  /** The display colours the service supports, as the constants spell them. */
  const ColorShibafu := "shibafu"
  const ColorSora := "sora"
  const ColorIchou := "ichou"
  const ColorAjisai := "ajisai"
  const ColorKuro := "kuro"

  /** The red colour, as the constant is written: with a trailing blank. */
  const ColorMomijiAsWritten := "momiji "

  /** The red colour as the service names it: what the Go constant `ColorMomiji` evidently
      intends (the Go constant itself is `ColorMomijiAsWritten` above). */
  const ColorMomijiIntended := "momiji"

  /** The names of the six colours the service documents. */
  const ServiceColors: set<string> := {"shibafu", "momiji", "sora", "ichou", "ajisai", "kuro"}

  /** The colour constants as written. */
  function ColorConstantsAsWritten(): seq<string> {
    [ColorShibafu, ColorMomijiAsWritten, ColorSora, ColorIchou, ColorAjisai, ColorKuro]
  }

  /** The colour constants with the red one corrected. */
  function ColorConstants(): seq<string> {
    [ColorShibafu, ColorMomijiIntended, ColorSora, ColorIchou, ColorAjisai, ColorKuro]
  }

  /** One of the constants as written is not a colour the service knows: a graph created with
      it is sent the colour "momiji " with a blank the service does not accept. */
  lemma MomijiAsWrittenIsNotAColor()
    ensures ColorConstantsAsWritten()[1] !in ServiceColors
    ensures exists c :: c in ColorConstantsAsWritten() && c !in ServiceColors
  {
    assert ColorMomijiAsWritten[6] == ' ';
    assert ColorConstantsAsWritten()[1] == ColorMomijiAsWritten;
  }

  /** With the red constant corrected, every colour constant names a service colour, and every
      service colour has a constant. */
  lemma ColorConstantsAreServiceColors()
    ensures forall c :: c in ColorConstants() <==> c in ServiceColors
  {
    var cs := ColorConstants();
    assert cs[0] == "shibafu" && cs[1] == "momiji" && cs[2] == "sora";
    assert cs[3] == "ichou" && cs[4] == "ajisai" && cs[5] == "kuro";
  }

  /** The self-sufficient modes: the graph counts its own SVG views up, down, or not at all. */
  const SelfSufficientIncrement := "increment"
  const SelfSufficientDecrement := "decrement"
  const SelfSufficientNone := "none"

  /** The SVG display modes. */
  const ModeShort := "short"
  const ModeLine := "line"

  /** The request record `graphCreate`. */
  datatype GraphCreate = GraphCreate(
    id: string, name: string, unit: string, quantityType: string, color: string, timeZone: string,
    selfSufficient: string, isSecret: bool, publishOptionalData: bool)

  /** The fields of `graphCreate` with their json tags; none is `omitempty`. */
  function GraphCreateFields(c: GraphCreate): (fs: seq<Field>)
    ensures |fs| == 9
    ensures forall f | f in fs :: !f.omitEmpty
  {
    [ Field("id", JString(c.id), false),
      Field("name", JString(c.name), false),
      Field("unit", JString(c.unit), false),
      Field("type", JString(c.quantityType), false),
      Field("color", JString(c.color), false),
      Field("timezone", JString(c.timeZone), false),
      Field("selfSufficient", JString(c.selfSufficient), false),
      Field("isSecret", JBool(c.isSecret), false),
      Field("publishOptionalData", JBool(c.publishOptionalData), false) ]
  }

  /** The request record `graphUpdate`: the create record without id and type, with the list
      of URLs whose cache the service purges; a nil list is written as null. */
  datatype GraphUpdate = GraphUpdate(
    name: string, unit: string, color: string, timeZone: string, purgeCacheUrls: Option<seq<string>>,
    selfSufficient: string, isSecret: bool, publishOptionalData: bool)

  /** A Go []string as JSON: null when nil, an array otherwise. */
  function StringList(urls: Option<seq<string>>): Json {
    match urls
    case None => JNull
    case Some(items) => JStrings(items)
  }

  /** The fields of `graphUpdate` with their json tags; none is `omitempty`. */
  function GraphUpdateFields(u: GraphUpdate): (fs: seq<Field>)
    ensures |fs| == 8
    ensures forall f | f in fs :: !f.omitEmpty
  {
    [ Field("name", JString(u.name), false),
      Field("unit", JString(u.unit), false),
      Field("color", JString(u.color), false),
      Field("timezone", JString(u.timeZone), false),
      Field("purgeCacheURLs", StringList(u.purgeCacheUrls), false),
      Field("selfSufficient", JString(u.selfSufficient), false),
      Field("isSecret", JBool(u.isSecret), false),
      Field("publishOptionalData", JBool(u.publishOptionalData), false) ]
  }

  /** `graphCreate` is written with all nine keys in field order, the flags as JSON booleans. */
  lemma GraphCreateEmits(c: GraphCreate)
    ensures Kept(GraphCreateFields(c)) ==
      [ Member("id", JString(c.id)),
        Member("name", JString(c.name)),
        Member("unit", JString(c.unit)),
        Member("type", JString(c.quantityType)),
        Member("color", JString(c.color)),
        Member("timezone", JString(c.timeZone)),
        Member("selfSufficient", JString(c.selfSufficient)),
        Member("isSecret", JBool(c.isSecret)),
        Member("publishOptionalData", JBool(c.publishOptionalData)) ]
  {
    var fs := GraphCreateFields(c);
    KeptUnrolled(fs);
    assert Kept(fs[8..]) == [Member("publishOptionalData", JBool(c.publishOptionalData))];
    assert Kept(fs[7..]) == [Member("isSecret", JBool(c.isSecret))] + Kept(fs[8..]);
    assert Kept(fs[6..]) == [Member("selfSufficient", JString(c.selfSufficient))] + Kept(fs[7..]);
    assert Kept(fs[5..]) == [Member("timezone", JString(c.timeZone))] + Kept(fs[6..]);
    assert Kept(fs[4..]) == [Member("color", JString(c.color))] + Kept(fs[5..]);
    assert Kept(fs[3..]) == [Member("type", JString(c.quantityType))] + Kept(fs[4..]);
    assert Kept(fs[2..]) == [Member("unit", JString(c.unit))] + Kept(fs[3..]);
    assert Kept(fs[1..]) == [Member("name", JString(c.name))] + Kept(fs[2..]);
  }

  /** `graphUpdate` is written with all eight keys in field order. */
  lemma GraphUpdateEmits(u: GraphUpdate)
    ensures Kept(GraphUpdateFields(u)) ==
      [ Member("name", JString(u.name)),
        Member("unit", JString(u.unit)),
        Member("color", JString(u.color)),
        Member("timezone", JString(u.timeZone)),
        Member("purgeCacheURLs", StringList(u.purgeCacheUrls)),
        Member("selfSufficient", JString(u.selfSufficient)),
        Member("isSecret", JBool(u.isSecret)),
        Member("publishOptionalData", JBool(u.publishOptionalData)) ]
  {
    var fs := GraphUpdateFields(u);
    KeptUnrolled(fs);
    assert Kept(fs[7..]) == [Member("publishOptionalData", JBool(u.publishOptionalData))];
    assert Kept(fs[6..]) == [Member("isSecret", JBool(u.isSecret))] + Kept(fs[7..]);
    assert Kept(fs[5..]) == [Member("selfSufficient", JString(u.selfSufficient))] + Kept(fs[6..]);
    assert Kept(fs[4..]) == [Member("purgeCacheURLs", StringList(u.purgeCacheUrls))] + Kept(fs[5..]);
    assert Kept(fs[3..]) == [Member("timezone", JString(u.timeZone))] + Kept(fs[4..]);
    assert Kept(fs[2..]) == [Member("color", JString(u.color))] + Kept(fs[3..]);
    assert Kept(fs[1..]) == [Member("unit", JString(u.unit))] + Kept(fs[2..]);
  }

  /** The path of the account's graph collection. */
  function GraphsPath(g: Graph): string {
    "/users/" + g.userName + "/graphs"
  }

  /** The path of the accessor's graph. */
  function GraphPath(g: Graph): string {
    GraphsPath(g) + "/" + g.graphID
  }

  /** Creating a graph: POST to the account's graph collection, authenticated, with a body that
      holds the accessor's graph id and the definition under the nine keys in field order; the
      two flags are JSON booleans. */
  function CreateRequest(
    g: Graph, name: string, unit: string, quantityType: string, color: string, timeZone: string,
    selfSufficient: string, isSecret: bool, publishOptionalData: bool): (r: Request)
    ensures r.httpMethod == Post && r.url == ApiUrl("/users/" + g.userName + "/graphs")
    ensures r.header == TokenHeader(g.token)
    ensures r.body == Bytes(Encode(JObject(
      [ Member("id", JString(g.graphID)),
        Member("name", JString(name)),
        Member("unit", JString(unit)),
        Member("type", JString(quantityType)),
        Member("color", JString(color)),
        Member("timezone", JString(timeZone)),
        Member("selfSufficient", JString(selfSufficient)),
        Member("isSecret", JBool(isSecret)),
        Member("publishOptionalData", JBool(publishOptionalData)) ])))
  {
    var create := GraphCreate(g.graphID, name, unit, quantityType, color, timeZone, selfSufficient, isSecret, publishOptionalData);
    GraphCreateEmits(create);
    Request(Post, ApiUrl(GraphsPath(g)), TokenHeader(g.token), JsonBody(GraphCreateFields(create)))
  }

  /** Listing the graphs: GET on the account's graph collection, authenticated, empty body. */
  function GetAllRequest(g: Graph): (r: Request)
    ensures r.httpMethod == Get && r.url == ApiUrl("/users/" + g.userName + "/graphs")
    ensures r.header == TokenHeader(g.token) && r.body == Bytes("")
  {
    Request(Get, ApiUrl(GraphsPath(g)), TokenHeader(g.token), Bytes(""))
  }

  /** Fetching the SVG: GET on the graph with both query parameters always present, even when
      empty, authenticated with the package-level token rather than the accessor's own. */
  function GetSvgRequest(g: Graph, date: string, mode: string, packageToken: string): (r: Request)
    ensures r.httpMethod == Get
    ensures r.url == ApiUrl("/users/" + g.userName + "/graphs/" + g.graphID + "?date=" + date + "&mode=" + mode)
    ensures r.header == TokenHeader(packageToken) && r.body == Bytes("")
  {
    Request(Get, ApiUrl(GraphPath(g) + "?date=" + date + "&mode=" + mode), TokenHeader(packageToken), Bytes(""))
  }

  /** The SVG request carries the accessor's token exactly when the package-level token happens
      to equal it. */
  lemma GetSvgTokenIsPackageToken(g: Graph, date: string, mode: string, packageToken: string)
    ensures GetSvgRequest(g, date, mode, packageToken).header == GetAllRequest(g).header <==> packageToken == g.token
  {
    if GetSvgRequest(g, date, mode, packageToken).header == GetAllRequest(g).header {
      assert TokenHeader(packageToken)[UserToken] == packageToken;
    }
  }

  /** The address of the graph's HTML page; no request is made. */
  function Url(g: Graph): (u: Url)
    ensures u == ApiUrl("/users/" + g.userName + "/graphs/" + g.graphID + ".html")
  {
    ApiUrl(GraphPath(g) + ".html")
  }

  /** The address of the HTML page listing the account's graphs; no request is made. */
  function GraphsUrl(g: Graph): (u: Url)
    ensures u == ApiUrl("/users/" + g.userName + "/graphs.html")
  {
    ApiUrl(GraphsPath(g) + ".html")
  }

  /** Each HTML page is the address of the matching resource with ".html" appended. */
  lemma PagesFollowResources(g: Graph)
    ensures Url(g).path == DeleteRequest(g).url.path + ".html"
    ensures GraphsUrl(g).path == GetAllRequest(g).url.path + ".html"
  {
  }

  /** Fetching the statistics: GET on the graph's statistics with no header at all. */
  function StatsRequest(g: Graph): (r: Request)
    ensures r.httpMethod == Get && r.url == ApiUrl("/users/" + g.userName + "/graphs/" + g.graphID + "/stats")
    ensures r.header == map[] && r.body == Bytes("")
  {
    Request(Get, ApiUrl(GraphPath(g) + "/stats"), map[], Bytes(""))
  }

  /** Updating the graph: PUT on the graph, authenticated, with a body holding the eight
      updatable keys in field order; id and type are never sent. */
  function UpdateRequest(
    g: Graph, name: string, unit: string, color: string, timeZone: string, purgeCacheUrls: Option<seq<string>>,
    selfSufficient: string, isSecret: bool, publishOptionalData: bool): (r: Request)
    ensures r.httpMethod == Put && r.url == ApiUrl("/users/" + g.userName + "/graphs/" + g.graphID)
    ensures r.header == TokenHeader(g.token)
    ensures r.body == Bytes(Encode(JObject(
      [ Member("name", JString(name)),
        Member("unit", JString(unit)),
        Member("color", JString(color)),
        Member("timezone", JString(timeZone)),
        Member("purgeCacheURLs", if purgeCacheUrls.None? then JNull else JStrings(purgeCacheUrls.value)),
        Member("selfSufficient", JString(selfSufficient)),
        Member("isSecret", JBool(isSecret)),
        Member("publishOptionalData", JBool(publishOptionalData)) ])))
  {
    var update := GraphUpdate(name, unit, color, timeZone, purgeCacheUrls, selfSufficient, isSecret, publishOptionalData);
    GraphUpdateEmits(update);
    Request(Put, ApiUrl(GraphPath(g)), TokenHeader(g.token), JsonBody(GraphUpdateFields(update)))
  }

  /** The update body never names the graph id or the quantity type. */
  lemma UpdateOmitsIdAndType(
    g: Graph, name: string, unit: string, color: string, timeZone: string, purgeCacheUrls: Option<seq<string>>,
    selfSufficient: string, isSecret: bool, publishOptionalData: bool)
    ensures var r := UpdateRequest(g, name, unit, color, timeZone, purgeCacheUrls, selfSufficient, isSecret, publishOptionalData);
      BodyJson(r.body).Some? && BodyJson(r.body).value.JObject? &&
      forall m | m in BodyJson(r.body).value.members :: m.key != "id" && m.key != "type"
  {
    ObjectBodyReads(
      [ Member("name", JString(name)),
        Member("unit", JString(unit)),
        Member("color", JString(color)),
        Member("timezone", JString(timeZone)),
        Member("purgeCacheURLs", if purgeCacheUrls.None? then JNull else JStrings(purgeCacheUrls.value)),
        Member("selfSufficient", JString(selfSufficient)),
        Member("isSecret", JBool(isSecret)),
        Member("publishOptionalData", JBool(publishOptionalData)) ]);
  }

  /** Deleting the graph: DELETE on the graph, authenticated, empty body. */
  function DeleteRequest(g: Graph): (r: Request)
    ensures r.httpMethod == Delete && r.url == ApiUrl("/users/" + g.userName + "/graphs/" + g.graphID)
    ensures r.header == TokenHeader(g.token) && r.body == Bytes("")
  {
    Request(Delete, ApiUrl(GraphPath(g)), TokenHeader(g.token), Bytes(""))
  }

  /** Listing the pixel dates: GET on the graph's pixels with the period passed through as
      given, authenticated, empty body. */
  function GetPixelDatesRequest(g: Graph, from: string, to: string): (r: Request)
    ensures r.httpMethod == Get
    ensures r.url == ApiUrl("/users/" + g.userName + "/graphs/" + g.graphID + "/pixels?from=" + from + "&to=" + to)
    ensures r.header == TokenHeader(g.token) && r.body == Bytes("")
  {
    Request(Get, ApiUrl(GraphPath(g) + "/pixels?from=" + from + "&to=" + to), TokenHeader(g.token), Bytes(""))
  }

  // ---------------------------------------------------------------------------------------------
  // What the listing operations do with the decoded response

  /** One entry of `GraphDefinitions`. */
  datatype GraphDefinition = GraphDefinition(
    id: string, name: string, unit: string, quantityType: string, color: string, timeZone: string,
    purgeCacheUrls: seq<string>, selfSufficient: string, isSecret: bool, publishOptionalData: bool)

  /** `Stats`, without its floating-point average. */
  datatype StatsData = StatsData(
    totalPixelsCount: int, maxQuantity: int, minQuantity: int, totalQuantity: int, todaysQuantity: int)

  /** Listing the graphs: the definitions decoded from the listing request, with the success
      flag recomputed from the message; the zero record and the error when the request or the
      decoding failed. */
  function GetAll(g: Graph, fetch: Request -> Exchange<Envelope<seq<GraphDefinition>>>): (r: Reply<Envelope<seq<GraphDefinition>>>)
    ensures SettledFrom(fetch(GetAllRequest(g)), [], r)
  {
    Settled(fetch(GetAllRequest(g)), [])
  }

  /** The statistics: as decoded from the statistics request with the success flag recomputed
      from the message; nil and the error when the request or the decoding failed. */
  function Stats(g: Graph, fetch: Request -> Exchange<Envelope<StatsData>>): (r: Reply<Option<Envelope<StatsData>>>)
    ensures fetch(StatsRequest(g)).Received? ==>
      var d := fetch(StatsRequest(g)).value;
      r.err == None && r.value.Some? && r.value.value.payload == d.payload &&
      r.value.value.result.message == d.result.message &&
      (r.value.value.result.isSuccess <==> d.result.message == "")
    ensures fetch(StatsRequest(g)).Failed? ==> r == Reply(None, Some(fetch(StatsRequest(g)).failure))
  {
    match fetch(StatsRequest(g))
    case Received(d) => Reply(Some(Envelope(d.payload, Settle(d.result))), None)
    case Failed(f) => Reply(None, Some(f))
  }

  /** The pixel dates: as decoded from the pixel-dates request with the success flag recomputed
      from the message; the zero record and the error when the request or the decoding failed. */
  function GetPixelDates(g: Graph, from: string, to: string, fetch: Request -> Exchange<Envelope<seq<string>>>): (r: Reply<Envelope<seq<string>>>)
    ensures SettledFrom(fetch(GetPixelDatesRequest(g, from, to)), [], r)
  {
    Settled(fetch(GetPixelDatesRequest(g, from, to)), [])
  }

  /** The SVG text: the raw response body, or the empty string and the error. */
  function GetSvg(g: Graph, date: string, mode: string, packageToken: string, fetch: Request -> Exchange<string>): (r: Reply<string>)
    ensures fetch(GetSvgRequest(g, date, mode, packageToken)).Received? ==>
      r == Reply(fetch(GetSvgRequest(g, date, mode, packageToken)).value, None)
    ensures fetch(GetSvgRequest(g, date, mode, packageToken)).Failed? ==>
      r == Reply("", Some(fetch(GetSvgRequest(g, date, mode, packageToken)).failure))
  {
    match fetch(GetSvgRequest(g, date, mode, packageToken))
    case Received(b) => Reply(b, None)
    case Failed(f) => Reply("", Some(f))
  }
}

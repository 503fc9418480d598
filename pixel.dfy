/**
 * The pixel endpoints (pixel.go): the requests that record, increment, decrement, read, update
 * and delete the pixel of one date of a graph, and the success rule applied to a decoded read.
 */
module PixelApi {
  import opened Wrappers
  import opened Rest
  import opened Json

  /** The pixel accessor: the account, its token, and the graph whose pixels it addresses. */
  datatype Pixel = Pixel(userName: string, token: string, graphID: string)

  /** The request record `pixelCreate`; no field is `omitempty`. */
  function PixelCreateFields(date: string, quantity: string, optionalData: string): (fs: seq<Field>)
    ensures |fs| == 3
    ensures forall f | f in fs :: !f.omitEmpty
  {
    [ Field("date", JString(date), false),
      Field("quantity", JString(quantity), false),
      Field("optionalData", JString(optionalData), false) ]
  }

  /** The request record `pixelUpdate`; no field is `omitempty`. */
  function PixelUpdateFields(quantity: string, optionalData: string): (fs: seq<Field>)
    ensures |fs| == 2
    ensures forall f | f in fs :: !f.omitEmpty
  {
    [ Field("quantity", JString(quantity), false),
      Field("optionalData", JString(optionalData), false) ]
  }

  /** The path of the graph the accessor addresses. */
  function GraphPath(p: Pixel): string {
    "/users/" + p.userName + "/graphs/" + p.graphID
  }

  /** The path of the pixel of one date. */
  function PixelPath(p: Pixel, date: string): string {
    GraphPath(p) + "/" + date
  }

  /** Recording a pixel: POST on the graph, authenticated, with a body holding the date, the
      quantity and the optional data in that order; the optional data is sent even when empty. */
  function CreateRequest(p: Pixel, date: string, quantity: string, optionalData: string): (r: Request)
    ensures r.httpMethod == Post && r.url == ApiUrl("/users/" + p.userName + "/graphs/" + p.graphID)
    ensures r.header == TokenHeader(p.token)
    ensures r.body == Bytes(Encode(JObject(
      [ Member("date", JString(date)),
        Member("quantity", JString(quantity)),
        Member("optionalData", JString(optionalData)) ])))
  {
    var fs := PixelCreateFields(date, quantity, optionalData);
    KeptUnrolled(fs);
    assert Kept(fs[2..]) == [Member("optionalData", JString(optionalData))];
    assert Kept(fs[1..]) == [Member("quantity", JString(quantity))] + Kept(fs[2..]);
    assert Kept(fs) == [Member("date", JString(date))] + Kept(fs[1..]);
    assert Kept(fs) == [Member("date", JString(date)), Member("quantity", JString(quantity)), Member("optionalData", JString(optionalData))];
    Request(Post, ApiUrl(GraphPath(p)), TokenHeader(p.token), JsonBody(fs))
  }

  /** A pixel recorded without optional data still sends the key `optionalData`, with the empty
      string: the body is never the two-member object of date and quantity alone. */
  lemma CreateAlwaysSendsOptionalData(p: Pixel, date: string, quantity: string)
    ensures BodyJson(CreateRequest(p, date, quantity, "").body) !=
            Some(JObject([Member("date", JString(date)), Member("quantity", JString(quantity))]))
    ensures var b := BodyJson(CreateRequest(p, date, quantity, "").body);
      b.Some? && b.value.JObject? && Member("optionalData", JString("")) in b.value.members
  {
    var ms := [Member("date", JString(date)), Member("quantity", JString(quantity)), Member("optionalData", JString(""))];
    ObjectBodyReads(ms);
    assert ms[2] == Member("optionalData", JString(""));
  }

  /** The header of the two counter requests: a zero content length and a token. */
  function CounterHeader(token: string): (h: map<HeaderKey, string>)
    ensures h.Keys == {ContentLength, UserToken}
    ensures h[ContentLength] == "0" && h[UserToken] == token
  {
    map[ContentLength := "0", UserToken := token]
  }

  /** Incrementing today's pixel: PUT on the graph's increment address with a zero content
      length and the accessor's token, empty body. */
  function IncrementRequest(p: Pixel): (r: Request)
    ensures r.httpMethod == Put && r.url == ApiUrl("/users/" + p.userName + "/graphs/" + p.graphID + "/increment")
    ensures r.header == map[ContentLength := "0", UserToken := p.token] && r.body == Bytes("")
  {
    Request(Put, ApiUrl(GraphPath(p) + "/increment"), CounterHeader(p.token), Bytes(""))
  }

  /** Decrementing today's pixel: PUT on the graph's decrement address with a zero content
      length and the package-level token rather than the accessor's own, empty body. */
  function DecrementRequest(p: Pixel, packageToken: string): (r: Request)
    ensures r.httpMethod == Put && r.url == ApiUrl("/users/" + p.userName + "/graphs/" + p.graphID + "/decrement")
    ensures r.header == map[ContentLength := "0", UserToken := packageToken] && r.body == Bytes("")
  {
    Request(Put, ApiUrl(GraphPath(p) + "/decrement"), CounterHeader(packageToken), Bytes(""))
  }

  /** Increment and decrement send the same header exactly when the package-level token equals
      the accessor's token. */
  lemma CounterHeadersAgreeOnlyForSameToken(p: Pixel, packageToken: string)
    ensures IncrementRequest(p).header == DecrementRequest(p, packageToken).header <==> packageToken == p.token
  {
    if IncrementRequest(p).header == DecrementRequest(p, packageToken).header {
      assert CounterHeader(p.token)[UserToken] == CounterHeader(packageToken)[UserToken];
    }
  }

  /** Reading a pixel: GET on the pixel of the date, authenticated, empty body. */
  function GetRequest(p: Pixel, date: string): (r: Request)
    ensures r.httpMethod == Method.Get && r.url == ApiUrl("/users/" + p.userName + "/graphs/" + p.graphID + "/" + date)
    ensures r.header == TokenHeader(p.token) && r.body == Bytes("")
  {
    Request(Method.Get, ApiUrl(PixelPath(p, date)), TokenHeader(p.token), Bytes(""))
  }

  /** Updating a pixel: PUT on the pixel of the date, authenticated, with a body holding the
      quantity and the optional data; the date travels in the address only. */
  function UpdateRequest(p: Pixel, date: string, quantity: string, optionalData: string): (r: Request)
    ensures r.httpMethod == Put && r.url == ApiUrl("/users/" + p.userName + "/graphs/" + p.graphID + "/" + date)
    ensures r.header == TokenHeader(p.token)
    ensures r.body == Bytes(Encode(JObject(
      [ Member("quantity", JString(quantity)),
        Member("optionalData", JString(optionalData)) ])))
  {
    var fs := PixelUpdateFields(quantity, optionalData);
    KeptUnrolled(fs);
    assert Kept(fs[1..]) == [Member("optionalData", JString(optionalData))];
    assert Kept(fs) == [Member("quantity", JString(quantity))] + Kept(fs[1..]);
    assert Kept(fs) == [Member("quantity", JString(quantity)), Member("optionalData", JString(optionalData))];
    Request(Put, ApiUrl(PixelPath(p, date)), TokenHeader(p.token), JsonBody(fs))
  }

  /** Deleting a pixel: DELETE on the pixel of the date, authenticated, empty body. */
  function DeleteRequest(p: Pixel, date: string): (r: Request)
    ensures r.httpMethod == Delete && r.url == ApiUrl("/users/" + p.userName + "/graphs/" + p.graphID + "/" + date)
    ensures r.header == TokenHeader(p.token) && r.body == Bytes("")
  {
    Request(Delete, ApiUrl(PixelPath(p, date)), TokenHeader(p.token), Bytes(""))
  }

  /** Read, update and delete address the same pixel with the same header; read and delete
      differ in the method alone. */
  lemma PixelRequestsShareTarget(p: Pixel, date: string, quantity: string, optionalData: string)
    ensures GetRequest(p, date).url == UpdateRequest(p, date, quantity, optionalData).url == DeleteRequest(p, date).url
    ensures GetRequest(p, date).header == UpdateRequest(p, date, quantity, optionalData).header == DeleteRequest(p, date).header
    ensures DeleteRequest(p, date) == GetRequest(p, date).(httpMethod := Delete)
  {
  }

  /** The update body never holds the date. */
  lemma UpdateOmitsDate(p: Pixel, date: string, quantity: string, optionalData: string)
    ensures var b := BodyJson(UpdateRequest(p, date, quantity, optionalData).body);
      b.Some? && b.value.JObject? && forall m | m in b.value.members :: m.key != "date"
  {
    ObjectBodyReads([Member("quantity", JString(quantity)), Member("optionalData", JString(optionalData))]);
  }

  /** A pixel updated without optional data still sends the key `optionalData`, with the empty
      string: the body is never the one-member object of the quantity alone. */
  lemma UpdateAlwaysSendsOptionalData(p: Pixel, date: string, quantity: string)
    ensures BodyJson(UpdateRequest(p, date, quantity, "").body) != Some(JObject([Member("quantity", JString(quantity))]))
    ensures var b := BodyJson(UpdateRequest(p, date, quantity, "").body);
      b.Some? && b.value.JObject? && Member("optionalData", JString("")) in b.value.members
  {
    var ms := [Member("quantity", JString(quantity)), Member("optionalData", JString(""))];
    ObjectBodyReads(ms);
    assert ms[1] == Member("optionalData", JString(""));
  }

  /** The decoded `Quantity` record, without its `Result`. */
  datatype QuantityData = QuantityData(quantity: string, optionalData: string)

  /** Reading a pixel: the quantity decoded from the read request with the success flag
      recomputed from the message; the zero record and the error when the request or the
      decoding failed. */
  function Get(p: Pixel, date: string, fetch: Request -> Exchange<Envelope<QuantityData>>): (r: Reply<Envelope<QuantityData>>)
    ensures SettledFrom(fetch(GetRequest(p, date)), QuantityData("", ""), r)
  {
    Settled(fetch(GetRequest(p, date)), QuantityData("", ""))
  }
}

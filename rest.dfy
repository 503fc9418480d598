/**
 * What every resource accessor of the client shares: the request descriptor it builds, the
 * result envelope it returns, and the ways a call can fail.
 *
 * The transport helpers that execute a descriptor are not part of this model; an operation that
 * calls one takes it as a function parameter (`fetch`, `send`) from descriptor to outcome, so the
 * model states which descriptor is sent and what is done with the outcome.
 */
module Rest {
  import opened Wrappers
  import Json

  /** The HTTP methods the client uses. */
  datatype Method = Get | Post | Put | Delete

  /** The two header names the client sets; their spelling is defined outside the modelled files. */
  datatype HeaderKey = UserToken | ContentLength

  /** A request body: Go's nil slice, or the bytes of a (possibly empty) payload. */
  datatype Body = NilBody | Bytes(text: string)

  /** A URL on the service: the API base URL, which is defined outside the modelled files,
      followed by `path` (path and query string). */
  datatype Url = ApiUrl(path: string)

  /** The request descriptor an accessor builds and hands to the transport. */
  datatype Request = Request(httpMethod: Method, url: Url, header: map<HeaderKey, string>, body: Body)

  /** The envelope every response carries. */
  datatype Result = Result(message: string, isSuccess: bool)

  /** The zero value `Result{}`. */
  const EmptyResult := Result("", false)

  /** Why a call failed: the service answered 404, answered another non-2xx status (its body is
      kept), the connection failed, the response was not the expected JSON, or a channel
      definition could not be converted. */
  datatype Failure =
    | NotFound
    | ApiFailure(body: string)
    | TransportFailure
    | MalformedJson
    | UnsupportedType(channelType: string)

  /** What a request and the decoding of its response produced: the decoded record, or a failure. */
  datatype Exchange<T> = Received(value: T) | Failed(failure: Failure)

  /** A Go pair (value, err): `err` is None when the call succeeded. */
  datatype Reply<T> = Reply(value: T, err: Option<Failure>)

  /** The success rule applied after decoding: the call succeeded exactly when the service sent
      no message; the decoded success flag is discarded. */
  function Settle(r: Result): (s: Result)
    ensures s.message == r.message
    ensures s.isSuccess <==> s.message == ""
  {
    Result(r.message, r.message == "")
  }

  /** Settling changes a decoded result exactly when its success flag disagreed with its message. */
  lemma SettleKeepsConsistent(r: Result)
    ensures Settle(r) == r <==> (r.isSuccess <==> r.message == "")
  {
  }

  /** A decoded response record: its own fields (`payload`) and the embedded `Result`. */
  datatype Envelope<T> = Envelope(payload: T, result: Result)

  /** The outcome of an operation that settles what it decoded: on success the payload and the
      message are kept and the success flag is recomputed from the message; on failure the zero
      record is returned with the error. */
  predicate SettledFrom<T(==)>(ex: Exchange<Envelope<T>>, zero: T, r: Reply<Envelope<T>>) {
    match ex
    case Received(d) =>
      && r.err == None
      && r.value.payload == d.payload
      && r.value.result.message == d.result.message
      && (r.value.result.isSuccess <==> d.result.message == "")
    case Failed(f) => r.err == Some(f) && r.value == Envelope(zero, EmptyResult)
  }

  /** Decoding followed by the success rule, as the listing and lookup operations do it. */
  function Settled<T(==)>(ex: Exchange<Envelope<T>>, zero: T): (r: Reply<Envelope<T>>)
    ensures SettledFrom(ex, zero, r)
    ensures r.err == None ==> (r.value.result.isSuccess <==> r.value.result.message == "")
  {
    match ex
    case Received(d) => Reply(Envelope(d.payload, Settle(d.result)), None)
    case Failed(f) => Reply(Envelope(zero, EmptyResult), Some(f))
  }

  /** Decoding without the success rule: the record is returned exactly as it was decoded. */
  function Passed<T(==)>(ex: Exchange<Envelope<T>>, zero: T): (r: Reply<Envelope<T>>)
    ensures ex.Received? ==> r == Reply(ex.value, None)
    ensures ex.Failed? ==> r == Reply(Envelope(zero, EmptyResult), Some(ex.failure))
  {
    match ex
    case Received(d) => Reply(d, None)
    case Failed(f) => Reply(Envelope(zero, EmptyResult), Some(f))
  }

  /** The two ways of handling a decoded record agree exactly when the service's success flag
      already matched its message. */
  lemma SettledAgreesWithPassed<T>(ex: Exchange<Envelope<T>>, zero: T)
    ensures Settled(ex, zero) == Passed(ex, zero) <==>
            (ex.Received? ==> (ex.value.result.isSuccess <==> ex.value.result.message == ""))
  {
    if ex.Received? {
      SettleKeepsConsistent(ex.value.result);
      assert Settled(ex, zero) == Passed(ex, zero) <==> Settle(ex.value.result) == ex.value.result;
    }
  }

  /** The body of a JSON request: the text Go's Marshal writes for the struct's fields. */
  function JsonBody(fields: seq<Json.Field>): Body {
    Bytes(Json.Encode(Json.JObject(Json.Kept(fields))))
  }

  /** The JSON value a request body holds, read back with the reference reader. */
  function BodyJson(b: Body): Option<Json.Json> {
    match b
    case NilBody => None
    case Bytes(text) => Json.Decode(text)
  }

  /** A JSON request body reads back as the object of the struct's emitted members. */
  lemma JsonBodyReads(fields: seq<Json.Field>)
    ensures BodyJson(JsonBody(fields)) == Some(Json.JObject(Json.Kept(fields)))
  {
    Json.DecodeEncode(Json.JObject(Json.Kept(fields)));
  }

  /** A body holding the text the encoder writes for an object reads back as that object. */
  lemma ObjectBodyReads(ms: seq<Json.Member>)
    ensures BodyJson(Bytes(Json.Encode(Json.JObject(ms)))) == Some(Json.JObject(ms))
  {
    Json.DecodeEncode(Json.JObject(ms));
  }

  /** A JSON request body holds no raw <, >, &, control character or line separator. */
  lemma JsonBodyHtmlSafe(fields: seq<Json.Field>)
    ensures Json.HtmlSafe(JsonBody(fields).text)
  {
    Json.EncodeSafe(Json.JObject(Json.Kept(fields)));
  }

  /** The header that authenticates a request with the given token. */
  function TokenHeader(token: string): map<HeaderKey, string> {
    map[UserToken := token]
  }
}

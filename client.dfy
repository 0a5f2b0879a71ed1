/**
 * The client of one Directus instance: how each schema endpoint is addressed,
 * how each response is read, and the client object whose three operations each
 * make at most one round trip over its transport.
 */
module Client {
  import opened Wrappers
  import opened Json
  import opened Http
  import opened Errors

  const SnapshotPath := "/schema/snapshot?access_token="
  const DiffPath := "/schema/diff?access_token="
  const ApplyPath := "/schema/apply?access_token="
  const ForceFlag := "&force=true"

  const StatusOK: nat := 200
  const StatusNoContent: nat := 204

  const JsonHeaders: map<string, string> := map["Content-Type" := "application/json"]

  // ---------------------------------------------------------------------------
  // Endpoints. The URL is plain concatenation: the token is not escaped.
  // ---------------------------------------------------------------------------

  function SnapshotUrl(base: string, token: string): string
  {
    base + SnapshotPath + token
  }

  function DiffUrl(base: string, token: string, force: bool): string
  {
    var url := base + DiffPath + token;
    if force then url + ForceFlag else url
  }

  function ApplyUrl(base: string, token: string): string
  {
    base + ApplyPath + token
  }

  /** Setting `force` appends the flag once at the very end and changes nothing before it. */
  lemma DiffForceAppendsFlag(base: string, token: string)
    ensures DiffUrl(base, token, true) == DiffUrl(base, token, false) + ForceFlag
    ensures DiffUrl(base, token, false) == base + DiffPath + token
  {
  }

  /** The three endpoints of one instance never share a URL, whatever the base and token. */
  lemma EndpointsDistinct(base: string, token: string, force: bool)
    ensures SnapshotUrl(base, token) != DiffUrl(base, token, force)
    ensures SnapshotUrl(base, token) != ApplyUrl(base, token)
    ensures DiffUrl(base, token, force) != ApplyUrl(base, token)
  {
  }

  /**
   * Because the token is pasted in unescaped, a token that itself ends in the
   * force flag yields the same diff URL as forcing with the shorter token.
   */
  lemma TokenNotEscaped(base: string, token: string)
    ensures DiffUrl(base, token + ForceFlag, false) == DiffUrl(base, token, true)
  {
  }

  // ---------------------------------------------------------------------------
  // Requests.
  // ---------------------------------------------------------------------------

  function SnapshotRequest(base: string, token: string): (r: Request)
    ensures r.verb == GET && r.body == None && r.headers == map[]
    ensures r.url == SnapshotUrl(base, token)
  {
    Request(GET, SnapshotUrl(base, token), map[], None)
  }

  function DiffRequest(base: string, token: string, body: string, force: bool): (r: Request)
    ensures r.verb == POST && r.body == Some(body) && r.headers == JsonHeaders
    ensures r.url == DiffUrl(base, token, force)
  {
    Request(POST, DiffUrl(base, token, force), JsonHeaders, Some(body))
  }

  function ApplyRequest(base: string, token: string, body: string): (r: Request)
    ensures r.verb == POST && r.body == Some(body) && r.headers == JsonHeaders
    ensures r.url == ApplyUrl(base, token)
  {
    Request(POST, ApplyUrl(base, token), JsonHeaders, Some(body))
  }

  /** The two diff requests for one snapshot differ only in the flag at the end of the URL. */
  lemma DiffForceOnlyChangesUrl(base: string, token: string, body: string)
    ensures DiffRequest(base, token, body, true)
         == DiffRequest(base, token, body, false).(url := DiffUrl(base, token, false) + ForceFlag)
  {
  }

  // ---------------------------------------------------------------------------
  // Responses.
  // ---------------------------------------------------------------------------

  /**
   * Decoding a body into a Go `map[string]any`: an object gives its fields,
   * JSON null leaves the map nil (no keys), any other value is a type error.
   */
  function DecodeEnvelope(op: Op, body: string, codec: Codec): Result<Document, ClientError>
  {
    match codec.decode(body)
    case Failure(cause) => Failure(DecodeFailed(op, cause))
    case Success(JObject(fields)) => Success(fields)
    case Success(JNull) => Success(map[])
    case Success(v) =>
      Failure(DecodeFailed(op, "json: cannot unmarshal " + KindName(v) + " into Go value of type map[string]interface {}"))
  }

  /** Unwrapping `{data: ...}`; a `data` that is not an object is a failure of its own. */
  function UnwrapData(op: Op, envelope: Document): Result<Document, ClientError>
  {
    if "data" !in envelope then Failure(MissingData(op))
    else match envelope["data"]
      case JObject(fields) => Success(fields)
      case _ => Failure(DataNotObject(op))
  }

  /** Reading the reply to a snapshot or diff request, case by case. */
  function InterpretFetch(op: Op, reply: Reply, codec: Codec): (r: Result<Document, ClientError>)
    ensures r.Success? ==> reply.Response? && reply.status == StatusOK
    ensures r.Failure? ==> r.error.op == op && !r.error.MarshalFailed?
    ensures reply.TransportError? ==> r == Failure(ExecuteFailed(op, reply.cause))
    ensures reply.Response? && reply.status != StatusOK ==> r == Failure(StatusFailed(op, reply.status, reply.body))
    ensures reply.Response? && reply.status == StatusOK ==>
      var decoded := codec.decode(reply.body);
      && (decoded.Failure? ==> r == Failure(DecodeFailed(op, decoded.error)))
      && (decoded == Success(JNull) ==> r == Failure(MissingData(op)))
      && (decoded.Success? && !decoded.value.JObject? && !decoded.value.JNull? ==> r.Failure? && r.error.DecodeFailed?)
      && (decoded.Success? && decoded.value.JObject? ==>
            var envelope := decoded.value.fields;
            && ("data" !in envelope ==> r == Failure(MissingData(op)))
            && ("data" in envelope && envelope["data"].JObject? ==> r == Success(envelope["data"].fields))
            && ("data" in envelope && !envelope["data"].JObject? ==> r == Failure(DataNotObject(op))))
  {
    match reply
    case TransportError(cause) => Failure(ExecuteFailed(op, cause))
    case Response(status, body) =>
      if status != StatusOK then Failure(StatusFailed(op, status, body))
      else match DecodeEnvelope(op, body, codec)
        case Failure(e) => Failure(e)
        case Success(envelope) => UnwrapData(op, envelope)
  }

  /** Reading the reply to an apply request: only 204 is success, and its body is not read. */
  function InterpretApply(reply: Reply): (r: Outcome<ClientError>)
    ensures r.Pass? <==> reply.Response? && reply.status == StatusNoContent
    ensures reply.TransportError? ==> r == Fail(ExecuteFailed(ApplyOp, reply.cause))
    ensures reply.Response? && reply.status != StatusNoContent ==> r == Fail(StatusFailed(ApplyOp, reply.status, reply.body))
  {
    match reply
    case TransportError(cause) => Fail(ExecuteFailed(ApplyOp, cause))
    case Response(status, body) =>
      if status != StatusNoContent then Fail(StatusFailed(ApplyOp, status, body)) else Pass
  }

  /** Encoding a payload before it is sent. */
  function Marshal(op: Op, payload: Document, codec: Codec): Result<string, ClientError>
  {
    match codec.encode(JObject(payload))
    case Failure(cause) => Failure(MarshalFailed(op, cause))
    case Success(body) => Success(body)
  }

  // ---------------------------------------------------------------------------
  // One operation as a value: its result and the requests it put on the wire,
  // given the server and the requests sent before it.
  // ---------------------------------------------------------------------------

  datatype Exchange<T> = Exchange(result: T, sent: seq<Request>)

  /** Exactly the snapshot request is sent, and its reply is read as a snapshot response. */
  function SnapshotExchange(base: string, token: string, codec: Codec, server: Server, history: seq<Request>)
    : (x: Exchange<Result<Document, ClientError>>)
    ensures x.sent == [SnapshotRequest(base, token)]
    ensures x.result == InterpretFetch(SnapshotOp, server(history, x.sent[0]), codec)
  {
    var req := SnapshotRequest(base, token);
    Exchange(InterpretFetch(SnapshotOp, server(history, req), codec), [req])
  }

  /** A snapshot that cannot be encoded is reported before any request is sent. */
  function DiffExchange(base: string, token: string, snapshot: Document, force: bool, codec: Codec,
                        server: Server, history: seq<Request>): (x: Exchange<Result<Document, ClientError>>)
    ensures x.sent == [] <==> codec.encode(JObject(snapshot)).Failure?
    ensures x.sent == [] ==> x.result == Failure(MarshalFailed(DiffOp, codec.encode(JObject(snapshot)).error))
    ensures x.sent != [] ==> x.sent == [DiffRequest(base, token, codec.encode(JObject(snapshot)).value, force)]
    ensures x.sent != [] ==> x.result == InterpretFetch(DiffOp, server(history, x.sent[0]), codec)
  {
    match Marshal(DiffOp, snapshot, codec)
    case Failure(e) => Exchange(Failure(e), [])
    case Success(body) =>
      var req := DiffRequest(base, token, body, force);
      Exchange(InterpretFetch(DiffOp, server(history, req), codec), [req])
  }

  /** A diff that cannot be encoded is reported before any request is sent. */
  function ApplyExchange(base: string, token: string, diff: Document, codec: Codec,
                         server: Server, history: seq<Request>): (x: Exchange<Outcome<ClientError>>)
    ensures x.sent == [] <==> codec.encode(JObject(diff)).Failure?
    ensures x.sent == [] ==> x.result == Fail(MarshalFailed(ApplyOp, codec.encode(JObject(diff)).error))
    ensures x.sent != [] ==> x.sent == [ApplyRequest(base, token, codec.encode(JObject(diff)).value)]
    ensures x.sent != [] ==> x.result == InterpretApply(server(history, x.sent[0]))
  {
    match Marshal(ApplyOp, diff, codec)
    case Failure(e) => Exchange(Fail(e), [])
    case Success(body) =>
      var req := ApplyRequest(base, token, body);
      Exchange(InterpretApply(server(history, req)), [req])
  }

  // ---------------------------------------------------------------------------
  // The client object.
  // ---------------------------------------------------------------------------

  /** The connection to one Directus instance; its fields never change. */
  class DirectusClient {
    const url: string
    const accessToken: string
    const http: Transport

    /** Stores the address and the token as given and sends nothing. */
    constructor (url: string, accessToken: string, http: Transport)
      ensures this.url == url && this.accessToken == accessToken && this.http == http
      ensures http.log == old(http.log)
    {
      this.url := url;
      this.accessToken := accessToken;
      this.http := http;
    }

    method GetSnapshot(codec: Codec) returns (r: Result<Document, ClientError>)
      modifies http
      ensures var x := SnapshotExchange(url, accessToken, codec, http.server, old(http.log));
              r == x.result && http.log == old(http.log) + x.sent
    {
      var req := SnapshotRequest(url, accessToken);
      var reply := http.Do(req);
      r := InterpretFetch(SnapshotOp, reply, codec);
    }

    method GetDiff(snapshot: Document, force: bool, codec: Codec) returns (r: Result<Document, ClientError>)
      modifies http
      ensures var x := DiffExchange(url, accessToken, snapshot, force, codec, http.server, old(http.log));
              r == x.result && http.log == old(http.log) + x.sent
    {
      var body := Marshal(DiffOp, snapshot, codec);
      if body.Failure? {
        return Failure(body.error);
      }
      var req := DiffRequest(url, accessToken, body.value, force);
      var reply := http.Do(req);
      r := InterpretFetch(DiffOp, reply, codec);
    }

    method ApplyDiff(diff: Document, codec: Codec) returns (r: Outcome<ClientError>)
      modifies http
      ensures var x := ApplyExchange(url, accessToken, diff, codec, http.server, old(http.log));
              r == x.result && http.log == old(http.log) + x.sent
    {
      var body := Marshal(ApplyOp, diff, codec);
      if body.Failure? {
        return Fail(body.error);
      }
      var req := ApplyRequest(url, accessToken, body.value);
      var reply := http.Do(req);
      r := InterpretApply(reply);
    }
  }
}

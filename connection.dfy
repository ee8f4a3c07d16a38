/**
 * `ProfilingConnection`: it opens an upload session with the profiling service and then
 * posts profile data and timeline data to paths built from the session's id and key.
 *
 * The compressor (a GZIP stream), the JSON parser and the HTTP exchange are parameters:
 * `gzip` maps the bytes written into the compressing stream to the bytes it produces,
 * `parse` maps a body text to its JSON value (`None` for a `ParseException`), and `server`
 * maps a request to its response.
 */
module Connection {
  import opened Wrappers
  import opened Bytes
  import opened Framing
  import opened Sizes
  import opened Paths
  import opened Json
  import opened Transport
  import opened Responses

  type Compressor = seq<byte> -> seq<byte>
  type Parser = string -> Option<Value>
  type Server = Request -> Response

  const CREATE := "create"
  const TIMELINE := "timeline"
  const FAILED_CONNECTING := "Failed connecting to Flare server"
  const INVALID_RESPONSE := "Received invalid response from Flare server, please check logs"

  /**
   * The POST of `postBytesRequest`: to the joined path resolved against the service address,
   * with the token, carrying the compressed bytes; `None` when the path is not a URI.
   */
  function Outgoing(auth: Auth, segments: seq<string>, compressed: seq<byte>): Option<Request>
  {
    match Resolve(auth.base, RequestPath(segments))
    case None => None
    case Some(uri) => Some(Request(uri, Authorization(auth.token), compressed))
  }

  /**
   * `postBytesRequest`: send, then classify the answer. It succeeds only on a request that
   * was sent and answered with status 200 and an object whose `error` flag is clear, and
   * returns that object.
   */
  function PostBytes(auth: Auth, segments: seq<string>, compressed: seq<byte>, parse: Parser, server: Server)
    : (r: Result<JsonObject, Failure>)
    ensures r.Success? ==> var req := Outgoing(auth, segments, compressed);
      req.Some? && req.value.body == compressed && req.value.authorization == Authorization(auth.token) &&
      server(req.value).Responded? && server(req.value).status == 200 &&
      parse(server(req.value).body) == Some(Object(r.value)) && ErrorFlagClear(r.value)
    ensures Outgoing(auth, segments, compressed).None? <==> r == Failure(IllegalArgument(RequestPath(segments)))
    ensures r.Failure? && r.error.IoError? ==> r.error.reason.SendFailed? || r.error.reason.BadStatus?
  {
    match Outgoing(auth, segments, compressed)
    case None => Failure(IllegalArgument(RequestPath(segments)))
    case Some(req) =>
      match server(req)
      case SendFault => Failure(IoError(SendFailed))
      case Responded(status, body) => Classify(req.uri, status, body, parse(body))
  }

  /**
   * The `catch (IOException | InterruptedException e)` of `request` and `multiDataRequest`:
   * such a failure becomes "Failed connecting to Flare server" with the same cause; every
   * other outcome passes unchanged.
   */
  function WrapIo(r: Result<JsonObject, Failure>): (w: Result<JsonObject, Failure>)
    ensures !(w.Failure? && w.error.IoError?)
    ensures r.Failure? && r.error.IoError? ==> w == Failure(UserReportable(FAILED_CONNECTING, Some(r.error.reason)))
    ensures !(r.Failure? && r.error.IoError?) ==> w == r
  {
    if r.Failure? && r.error.IoError? then Failure(UserReportable(FAILED_CONNECTING, Some(r.error.reason))) else r
  }

  /**
   * The outcome of `request`: the payload is compressed as it is, with no framing. No
   * `IOException` escapes, and a success is a success of the POST of the compressed payload.
   */
  function RequestResult(auth: Auth, payload: Bytes, segments: seq<string>, gzip: Compressor, parse: Parser, server: Server)
    : (r: Result<JsonObject, Failure>)
    ensures !(r.Failure? && r.error.IoError?) && !(r.Failure? && r.error.IllegalState?)
    ensures r.Success? <==> PostBytes(auth, segments, gzip(payload), parse, server).Success?
    ensures r.Success? ==> r.value == PostBytes(auth, segments, gzip(payload), parse, server).value
  {
    WrapIo(PostBytes(auth, segments, gzip(payload), parse, server))
  }

  /**
   * The outcome of `multiDataRequest`: the payloads are framed, the first one is read back
   * (an unchecked `IllegalStateException` when there is none to read), and the framed body
   * is compressed and posted.
   */
  function MultiDataResult(auth: Auth, payloads: seq<Bytes>, segments: seq<string>, gzip: Compressor, parse: Parser, server: Server)
    : (r: Result<JsonObject, Failure>)
    ensures payloads == [] <==> r == Failure(IllegalState)
    ensures payloads != [] ==> r == WrapIo(PostBytes(auth, segments, gzip(Frame(payloads)), parse, server))
  {
    ReadFirstOfFrame(payloads);
    var framed := Frame(payloads);
    if ReadFirst(framed).None? then Failure(IllegalState)
    else WrapIo(PostBytes(auth, segments, gzip(framed), parse, server))
  }

  /** The bytes handed to the compressor when a session is created. */
  function CreationBody(creator: Bytes, metadata: Option<Bytes>): seq<byte>
  {
    match metadata
    case None => creator
    case Some(m) => Frame([creator, m])
  }

  /** The answer to the creation request (lines 45-50). */
  function CreationResult(auth: Auth, creator: Bytes, metadata: Option<Bytes>, gzip: Compressor, parse: Parser, server: Server)
    : Result<JsonObject, Failure>
  {
    match metadata
    case None => RequestResult(auth, creator, [CREATE], gzip, parse, server)
    case Some(m) => MultiDataResult(auth, [creator, m], [CREATE], gzip, parse, server)
  }

  /** The session the service hands out: the id and key of every later request. */
  datatype Session = Session(id: string, key: string)

  /** Both fields present as strings: what a usable creation answer holds. */
  predicate HasSession(o: JsonObject)
  {
    "id" in o && o["id"].Str? && "key" in o && o["key"].Str?
  }

  /** A field that `getString(name, null)` reads without throwing: absent, or a string. */
  predicate ReadableOrAbsent(o: JsonObject, name: string)
  {
    name !in o || o[name].Str?
  }

  /**
   * Lines 52-56: read `id`, then `key`, each with a `null` default, and refuse the answer
   * unless both are there.
   */
  function SessionOf(o: JsonObject): (r: Result<Session, Failure>)
    ensures r.Success? <==> HasSession(o)
    ensures r.Success? ==> r.value == Session(o["id"].s, o["key"].s)
    ensures r == Failure(UserReportable(INVALID_RESPONSE, Some(NoSession(o)))) <==>
      !HasSession(o) && ReadableOrAbsent(o, "id") && ReadableOrAbsent(o, "key")
    ensures r.Failure? && !r.error.UserReportable? ==> r.error.Unsupported? && r.error.expected == "string"
  {
    match GetString(o, "id", None)
    case Failure(v) => Failure(Unsupported("string", v))
    case Success(id) =>
      match GetString(o, "key", None)
      case Failure(v) => Failure(Unsupported("string", v))
      case Success(key) =>
        if id.None? || key.None? then Failure(UserReportable(INVALID_RESPONSE, Some(NoSession(o))))
        else Success(Session(id.value, key.value))
  }

  /**
   * Opening a connection: the creation request, then the session check. It opens exactly
   * when the creation call succeeds with an object holding a string `id` and a string `key`;
   * the session is made of those two strings.
   */
  function Establish(auth: Auth, creator: Bytes, metadata: Option<Bytes>, gzip: Compressor, parse: Parser, server: Server)
    : (r: Result<Session, Failure>)
    ensures var c := CreationResult(auth, creator, metadata, gzip, parse, server);
      r.Success? <==> c.Success? && HasSession(c.value)
    ensures var c := CreationResult(auth, creator, metadata, gzip, parse, server);
      r.Success? ==> r.value == Session(c.value["id"].s, c.value["key"].s)
    ensures var c := CreationResult(auth, creator, metadata, gzip, parse, server);
      c.Failure? ==> r == Failure(c.error)
  {
    match CreationResult(auth, creator, metadata, gzip, parse, server)
    case Failure(e) => Failure(e)
    case Success(o) => SessionOf(o)
  }

  /**
   * With no metadata the compressor receives the creation payload itself (nothing when it
   * is empty); with metadata it receives the framed pair, which decodes back to the two
   * payloads and is 8 bytes longer than they are together.
   */
  lemma CreationBodyShape(creator: Bytes, metadata: Option<Bytes>)
    ensures metadata.None? ==> CreationBody(creator, metadata) == creator
    ensures metadata.None? && creator == [] ==> CreationBody(creator, metadata) == []
    ensures metadata.Some? ==> Unframe(CreationBody(creator, metadata)) == Some([creator, metadata.value])
    ensures metadata.Some? ==> |CreationBody(creator, metadata)| == 8 + |creator| + |metadata.value|
  {
    if metadata.Some? {
      UnframeFrame([creator, metadata.value]);
      var m := metadata.value;
      assert TotalSize([creator, m]) == |creator| + |m| by {
        assert [creator, m][1..] == [m] && [m][1..] == [];
      }
    }
  }

  /**
   * The creation request, in either form, is one POST to "/create" of the compressed
   * creation body: the read-back of the first framed payload never fails there.
   */
  lemma CreationPost(auth: Auth, creator: Bytes, metadata: Option<Bytes>, gzip: Compressor, parse: Parser, server: Server)
    ensures CreationResult(auth, creator, metadata, gzip, parse, server) ==
      WrapIo(PostBytes(auth, [CREATE], gzip(CreationBody(creator, metadata)), parse, server))
  {
    if metadata.Some? {
      ReadFirstOfFrame([creator, metadata.value]);
    }
  }

  /**
   * Session fields that keep line 108's reference a plain absolute path: an id that is
   * neither empty nor starts with '/' (either makes the path start with "//"), and no '?'
   * or '#', which would start a query or a fragment.
   */
  predicate PlainSession(id: string, key: string)
  {
    id != "" && id[0] != '/' && forall c :: c in id + key ==> c != '?' && c != '#'
  }

  /**
   * Every request of a plain session goes to the service's own scheme and authority, with
   * the token, carrying exactly the compressed bytes; the creation request always does.
   */
  lemma RequestsOfSession(auth: Auth, id: string, key: string, compressed: seq<byte>)
    ensures Outgoing(auth, [CREATE], compressed) ==
      Some(Request(Uri(auth.base.scheme, auth.base.authority, "/create"), "token " + auth.token, compressed))
    ensures PlainSession(id, key) ==>
      Outgoing(auth, [id, key], compressed) ==
      Some(Request(Uri(auth.base.scheme, auth.base.authority, "/" + id + "/" + key), "token " + auth.token, compressed))
    ensures PlainSession(id, key) ==>
      Outgoing(auth, [id, key, TIMELINE], compressed) ==
      Some(Request(Uri(auth.base.scheme, auth.base.authority, "/" + id + "/" + key + "/timeline"), "token " + auth.token, compressed))
  {
    SessionPaths(id, key);
    if id != "" {
      assert ("/" + id + "/" + key)[1] == id[0];
      assert ("/" + id + "/" + key + "/timeline")[1] == id[0];
    }
  }

  /**
   * An empty id turns the data path "//key" into a network-path reference: the request,
   * token included, is addressed to the authority named by the key, and when the key is a
   * host name the data and the token go to that host. With an empty key as well, "//" is
   * not a URI and the call throws.
   */
  lemma EmptyId(auth: Auth, key: string, compressed: seq<byte>)
    requires key != "" && '/' !in key
    ensures Outgoing(auth, ["", key], compressed) ==
      Some(Request(Uri(auth.base.scheme, key, ""), "token " + auth.token, compressed))
    ensures Outgoing(auth, ["", key, TIMELINE], compressed) ==
      Some(Request(Uri(auth.base.scheme, key, "/timeline"), "token " + auth.token, compressed))
    ensures Outgoing(auth, ["", ""], compressed).None?
  {
    SessionPaths("", key);
    SessionPaths("", "");
    assert "/" + "" + "/" + key == "//" + key + "";
    assert "/" + "" + "/" + key + "/timeline" == "//" + key + "/timeline";
    ResolveNetworkPath(auth.base, key, "");
    ResolveNetworkPath(auth.base, key, "/timeline");
  }

  /**
   * The only request `request` sends is the POST of the compressed payload: two servers that
   * answer that one request alike give the same outcome.
   */
  lemma RequestSendsOnly(auth: Auth, payload: Bytes, segments: seq<string>, gzip: Compressor, parse: Parser, s1: Server, s2: Server)
    requires var req := Outgoing(auth, segments, gzip(payload));
      req.Some? ==> s1(req.value) == s2(req.value)
    ensures RequestResult(auth, payload, segments, gzip, parse, s1) == RequestResult(auth, payload, segments, gzip, parse, s2)
  {
  }

  /**
   * A parsed answer with a status other than 200 ends `request` as "Failed connecting to
   * Flare server", caused by that status and object.
   */
  lemma BadStatusReported(auth: Auth, payload: Bytes, segments: seq<string>, gzip: Compressor, parse: Parser, server: Server)
    requires Outgoing(auth, segments, gzip(payload)).Some?
    requires var resp := server(Outgoing(auth, segments, gzip(payload)).value);
      resp.Responded? && resp.status != 200 && parse(resp.body).Some? && parse(resp.body).value.Object?
    ensures var resp := server(Outgoing(auth, segments, gzip(payload)).value);
      RequestResult(auth, payload, segments, gzip, parse, server) ==
      Failure(UserReportable(FAILED_CONNECTING, Some(BadStatus(resp.status, parse(resp.body).value.members))))
  {
  }

  /** `{"id":"abc","key":"def"}` opens the session abc/def; a `null` id throws instead of being refused. */
  lemma CreationAnswers()
    ensures SessionOf(map["id" := Str("abc"), "key" := Str("def")]) == Success(Session("abc", "def"))
    ensures SessionOf(map["id" := Null, "key" := Str("x")]) == Failure(Unsupported("string", Null))
    ensures SessionOf(map["key" := Str("x")]) ==
      Failure(UserReportable(INVALID_RESPONSE, Some(NoSession(map["key" := Str("x")]))))
  {
    assert HasSession(map["id" := Str("abc"), "key" := Str("def")]);
    assert !HasSession(map["key" := Str("x")]);
  }

  /**
   * `request`: the payload is written into the compressing stream as it is, and the
   * compressed bytes are posted.
   */
  method SendRequest(auth: Auth, payload: Bytes, segments: seq<string>, gzip: Compressor, parse: Parser, server: Server)
    returns (r: Result<JsonObject, Failure>)
    ensures r == RequestResult(auth, payload, segments, gzip, parse, server)
  {
    var compressorInput := new ByteSink();
    compressorInput.Write(payload);
    assert compressorInput.bytes == payload;
    r := WrapIo(PostBytes(auth, segments, gzip(compressorInput.bytes), parse, server));
  }

  /**
   * `multiDataRequest`: each payload's length and bytes are appended to a growing buffer,
   * the first payload is read back, and the buffer is compressed and posted.
   */
  method SendMultiData(auth: Auth, payloads: seq<Bytes>, segments: seq<string>, gzip: Compressor, parse: Parser, server: Server)
    returns (r: Result<JsonObject, Failure>)
    ensures r == MultiDataResult(auth, payloads, segments, gzip, parse, server)
  {
    var data := new ByteSink();
    for i := 0 to |payloads|
      invariant data.bytes == Frame(payloads[..i])
    {
      data.WriteInt(|payloads[i]|);
      data.Write(payloads[i]);
      FrameConcat(payloads[..i], [payloads[i]]);
      assert payloads[..i + 1] == payloads[..i] + [payloads[i]];
    }
    assert payloads[..|payloads|] == payloads;
    var first := ReadFirst(data.bytes);
    if first.None? {
      return Failure(IllegalState);
    }
    r := WrapIo(PostBytes(auth, segments, gzip(data.bytes), parse, server));
  }

  class ProfilingConnection {
    const auth: Auth
    const id: string
    const key: string

    /** Holds an established session; only `Open` creates one. */
    constructor (auth: Auth, session: Session)
      ensures this.auth == auth && id == session.id && key == session.key
    {
      this.auth := auth;
      id := session.id;
      key := session.key;
    }

    /** The Java constructor: create the session and keep its id and key, or fail. */
    static method Open(auth: Auth, creator: Bytes, metadata: Option<Bytes>, gzip: Compressor, parse: Parser, server: Server)
      returns (r: Result<ProfilingConnection, Failure>)
      ensures var e := Establish(auth, creator, metadata, gzip, parse, server);
        e.Failure? ==> r == Failure(e.error)
      ensures var e := Establish(auth, creator, metadata, gzip, parse, server);
        e.Success? ==> r.Success? && fresh(r.value) && r.value.auth == auth && r.value.GetId() == e.value.id && r.value.key == e.value.key
    {
      var created: Result<JsonObject, Failure>;
      if metadata.None? {
        created := SendRequest(auth, creator, [CREATE], gzip, parse, server);
      } else {
        created := SendMultiData(auth, [creator, metadata.value], [CREATE], gzip, parse, server);
      }
      if created.Failure? {
        return Failure(created.error);
      }
      var session := SessionOf(created.value);
      if session.Failure? {
        return Failure(session.error);
      }
      var c := new ProfilingConnection(auth, session.value);
      r := Success(c);
    }

    /** `sendNewData`: post the profile data to "/id/key". */
    method SendNewData(payload: Bytes, gzip: Compressor, parse: Parser, server: Server) returns (o: Outcome<Failure>)
      ensures o == Discard(RequestResult(auth, payload, [id, key], gzip, parse, server))
    {
      var r := SendRequest(auth, payload, [id, key], gzip, parse, server);
      o := Discard(r);
    }

    /** `sendTimelineData`: post the timeline data to "/id/key/timeline". */
    method SendTimelineData(payload: Bytes, gzip: Compressor, parse: Parser, server: Server) returns (o: Outcome<Failure>)
      ensures o == Discard(RequestResult(auth, payload, [id, key, TIMELINE], gzip, parse, server))
    {
      var r := SendRequest(auth, payload, [id, key, TIMELINE], gzip, parse, server);
      o := Discard(r);
    }

    /** The session id; fixed for the connection's lifetime. */
    function GetId(): (r: string)
      ensures r == id
    {
      id
    }
  }
}

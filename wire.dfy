/**
 * The HTTP and JSON values both client generations work with. Network I/O,
 * JSON text and URL handling are library code; they appear here only through
 * the outcomes the clients branch on.
 */
module Wire {
  import opened Wrappers

  type Byte = b: int | 0 <= b < 256

  /** A JSON document, reduced to what decoding into string fields tells apart. */
  datatype Json =
    | JNull
    | JString(s: string)
    | JObject(members: map<string, Json>)
    | JOther  // a number, a boolean or an array

  /** What a JSON decoder finds in a body: no value at all (io.EOF), a syntax error, or a document. */
  datatype JsonRead = Eof | Malformed | Document(doc: Json)

  /** A response body: its raw bytes and what a JSON decoder reads from them. */
  datatype Body = Body(raw: seq<Byte>, read: JsonRead)

  /** The credential pair that SetBasicAuth encodes into the Authorization header. */
  datatype Credentials = Credentials(username: string, password: string)

  /** http.Header: canonical header names to their values, in the order they were added. */
  type Header = map<string, seq<string>>

  datatype Request = Request(
    httpMethod: string,
    url: string,
    payload: Option<seq<Byte>>,
    header: Header,
    basicAuth: Option<Credentials>)

  /** An http.Response: the request it answers, its status code, its Retry-After header ("" when absent) and its body. */
  datatype Response = Response(request: Request, status: int, retryAfter: string, body: Body)

  /** What one send of a request produces: a transport error, or a response. */
  datatype Reply = Failed(message: string) | Received(response: Response)

  /** The remote side as seen by one call: the reply to each successive send, numbered from 0. */
  type Server = nat -> Reply

  /**
   * The decode target `v` of Do: nil, an io.Writer (the bytes written to it so
   * far), or a pointer to a value JSON is decoded into (the document it holds).
   */
  datatype Target = NoTarget | Writer(written: seq<Byte>) | Slot(value: Option<Json>)

  predicate Is2xx(status: int) { 200 <= status <= 299 }

  /** The outcome of decoding JSON into a struct with string fields `reason` and `message`. */
  datatype ReasonMessage = ReasonMessage(reason: string, message: string, typeError: bool)

  predicate StringOrAbsent(members: map<string, Json>, key: string)
  {
    key !in members || members[key].JString? || members[key].JNull?
  }

  /**
   * encoding/json decoding one string field of a fresh struct: a JSON string
   * sets it, null or an absent member leaves it empty, any other value is an
   * UnmarshalTypeError and leaves it empty.
   */
  function DecodeStringField(members: map<string, Json>, key: string): (r: (string, bool))
    ensures r.1 <==> !StringOrAbsent(members, key)
    ensures r.0 != "" ==> key in members && members[key] == JString(r.0)
    ensures key in members && members[key].JString? ==> r.0 == members[key].s
  {
    if key !in members then ("", false)
    else match members[key]
      case JString(s) => (s, false)
      case JNull => ("", false)
      case _ => ("", true)
  }

  /**
   * encoding/json decoding a document into struct { Reason string
   * `json:"reason"`; Message string `json:"message"` }: null leaves the struct
   * empty, an object fills the fields it names (unknown members are ignored),
   * anything else is an UnmarshalTypeError.
   */
  function DecodeReasonMessage(j: Json): (d: ReasonMessage)
    ensures !d.typeError <==>
      j.JNull? || (j.JObject? && StringOrAbsent(j.members, "reason") && StringOrAbsent(j.members, "message"))
    ensures d.reason != "" ==> j.JObject? && "reason" in j.members && j.members["reason"] == JString(d.reason)
    ensures d.message != "" ==> j.JObject? && "message" in j.members && j.members["message"] == JString(d.message)
    ensures j.JObject? && "reason" in j.members && j.members["reason"].JString? ==> d.reason == j.members["reason"].s
    ensures j.JObject? && "message" in j.members && j.members["message"].JString? ==> d.message == j.members["message"].s
  {
    match j
      case JNull => ReasonMessage("", "", false)
      case JObject(members) =>
        var (reason, badReason) := DecodeStringField(members, "reason");
        var (message, badMessage) := DecodeStringField(members, "message");
        ReasonMessage(reason, message, badReason || badMessage)
      case _ => ReasonMessage("", "", true)
  }

  /** The flat error document {"reason": r, "message": m}. */
  function FlatError(reason: string, message: string): Json
  {
    JObject(map["reason" := JString(reason), "message" := JString(message)])
  }

  lemma DecodeFlatError(reason: string, message: string)
    ensures DecodeReasonMessage(FlatError(reason, message)) == ReasonMessage(reason, message, false)
  {
  }

  /** http.Client: only its timeout, in seconds (0 means none), is observable here. */
  class HttpClient {
    var timeoutSeconds: int

    constructor (timeoutSeconds: int)
      ensures this.timeoutSeconds == timeoutSeconds
    {
      this.timeoutSeconds := timeoutSeconds;
    }
  }

  /** The client's `auth` record, updated in place by Authenticate. */
  class Auth {
    var available: bool
    var username: string
    var password: string

    constructor ()
      ensures !available && username == "" && password == ""
    {
      available, username, password := false, "", "";
    }
  }

  datatype ClientConfig = ClientConfig(httpClient: Option<HttpClient>, restEndpointURL: string)

  const AcceptContentType := "application/json"

  /** The body argument of NewRequest: nil, a value json.Encoder turns into bytes, or one it refuses. */
  datatype Payload = NoPayload | Encoded(bytes: seq<Byte>) | Unencodable(reason: string)

  /** An RFC 7230 token character, the only kind net/http accepts in a method. */
  predicate IsTokenChar(c: char)
  {
    ('a' <= c <= 'z') || ('A' <= c <= 'Z') || ('0' <= c <= '9') || c in "!#$%&'*+-.^_`|~"
  }

  predicate ValidMethod(httpMethod: string)
  {
    |httpMethod| > 0 && forall i :: 0 <= i < |httpMethod| ==> IsTokenChar(httpMethod[i])
  }

  /** http.NewRequest sends GET when it is given no method. */
  function EffectiveMethod(httpMethod: string): string
  {
    if httpMethod == "" then "GET" else httpMethod
  }

  /** Header.Add: appends a value under a name. */
  function AddHeader(h: Header, name: string, value: string): (r: Header)
    ensures r.Keys == h.Keys + {name}
    ensures r[name] == (if name in h then h[name] else []) + [value]
    ensures forall k :: k in h && k != name ==> r[k] == h[k]
  {
    h[name := (if name in h then h[name] else []) + [value]]
  }

  /**
   * The request-building steps NewRequest performs in both generations:
   * fail on an unparsable URL, then on a body the encoder refuses, then on a
   * method net/http rejects; otherwise attach the credentials when the client
   * is authenticated, add Accept and Content-Type, and add User-Agent when it
   * is non-empty. `resolved` is the outcome of parsing the relative URL and
   * resolving it against the base URL.
   */
  method PrepareRequest(credentials: Option<Credentials>, userAgent: string, httpMethod: string,
                        resolved: Result<string>, payload: Payload) returns (r: Result<Request>)
    ensures resolved.Err? ==> r == Err(resolved.error)
    ensures resolved.Ok? && payload.Unencodable? ==> r == Err(payload.reason)
    ensures resolved.Ok? && !payload.Unencodable? ==> (r.Ok? <==> ValidMethod(EffectiveMethod(httpMethod)))
    ensures r.Ok? ==>
      && r.value.httpMethod == EffectiveMethod(httpMethod)
      && r.value.url == resolved.value
      && r.value.payload == (if payload.Encoded? then Some(payload.bytes) else None)
      && r.value.basicAuth == credentials
    ensures r.Ok? ==>
      && r.value.header.Keys == {"Accept", "Content-Type"} + (if userAgent != "" then {"User-Agent"} else {})
      && r.value.header["Accept"] == [AcceptContentType]
      && r.value.header["Content-Type"] == [AcceptContentType]
      && (userAgent != "" ==> r.value.header["User-Agent"] == [userAgent])
  {
    if resolved.Err? {
      return Err(resolved.error);
    }
    var body: Option<seq<Byte>> := None;
    match payload {
      case Unencodable(reason) => return Err(reason);
      case Encoded(bytes) => body := Some(bytes);
      case NoPayload =>
    }
    var m := EffectiveMethod(httpMethod);
    if !ValidMethod(m) {
      // %q quoting; Go's escaping of quotes and control characters is not modelled.
      return Err("net/http: invalid method \"" + m + "\"");
    }
    var req := Request(m, resolved.value, body, map[], None);
    if credentials.Some? {
      req := req.(basicAuth := credentials);
    }
    req := req.(header := AddHeader(req.header, "Accept", AcceptContentType));
    req := req.(header := AddHeader(req.header, "Content-Type", AcceptContentType));
    if userAgent != "" {
      req := req.(header := AddHeader(req.header, "User-Agent", userAgent));
    }
    return Ok(req);
  }
}

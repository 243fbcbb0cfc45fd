/**
 * The older graphmob client (package graphmob): one send per call, no retry,
 * and a flat {reason, message} error body.
 */
module Graphmob {
  import opened Wrappers
  import opened Decimal
  import opened Wire
  import Text

  const LibraryVersion := "1.0.0"
  const DefaultRestEndpointURL := "https://api.graphmob.com/v1/"
  const UserAgent := "graphmob-api-go/" + LibraryVersion

  /** errorResponse: the response that failed, with the reason and message its body gave. */
  datatype ErrorResponse = ErrorResponse(response: Response, reason: string, message: string)

  /** errorResponse.Error(): "<method> <url>: <status> <reason> <message>". */
  function ErrorText(e: ErrorResponse): string
  {
    e.response.request.httpMethod + " " + e.response.request.url + ": " +
    FormatInt(e.response.status) + " " + e.reason + " " + e.message
  }

  /** The fields an error text is made of. */
  datatype ErrorLine = ErrorLine(httpMethod: string, url: string, status: int, reason: string, message: string)

  /** Reads an error text back into its fields, splitting at spaces. */
  function ParseErrorText(s: string): Option<ErrorLine>
  {
    match Text.Cut(s, ' ')
      case None => None
      case Some((httpMethod, rest1)) =>
        match Text.Cut(rest1, ' ')
          case None => None
          case Some((urlColon, rest2)) =>
            if urlColon == [] || urlColon[|urlColon| - 1] != ':' then None
            else match Text.Cut(rest2, ' ')
              case None => None
              case Some((statusText, rest3)) =>
                match ParseInt32(statusText)
                  case None => None
                  case Some(status) =>
                    match Text.Cut(rest3, ' ')
                      case None => None
                      case Some((reason, message)) =>
                        Some(ErrorLine(httpMethod, urlColon[..|urlColon| - 1], status, reason, message))
  }

  /**
   * The error text gives back the method, URL, status, reason and message it
   * was made from, when the method, the URL and the reason hold no space (a
   * valid method and a serialized URL never do) and the status fits in 32 bits.
   */
  lemma ErrorTextRoundTrip(e: ErrorResponse)
    requires ' ' !in e.response.request.httpMethod && ' ' !in e.response.request.url && ' ' !in e.reason
    requires InInt32(e.response.status)
    ensures ParseErrorText(ErrorText(e)) ==
      Some(ErrorLine(e.response.request.httpMethod, e.response.request.url, e.response.status, e.reason, e.message))
  {
    var m, u, st := e.response.request.httpMethod, e.response.request.url, FormatInt(e.response.status);
    var rest3 := e.reason + " " + e.message;
    var rest2 := st + " " + rest3;
    var rest1 := (u + ":") + " " + rest2;
    assert ErrorText(e) == m + " " + rest1;
    Text.CutJoin(m, rest1, ' ');
    assert ' ' !in u + ":";
    Text.CutJoin(u + ":", rest2, ' ');
    FormatIntHasNoSpace(e.response.status);
    Text.CutJoin(st, rest3, ' ');
    ParseFormatRoundTrip(e.response.status);
    Text.CutJoin(e.reason, e.message, ' ');
    assert (u + ":")[..|u + ":"| - 1] == u;
  }

  /**
   * CheckResponse: nil for a 2xx status; otherwise always an error tied to the
   * response, with the reason and message of a flat {reason, message} body,
   * left empty when the body does not parse. A "Response" member of the body
   * is ignored (see CheckResponseAsWritten).
   */
  function CheckResponse(resp: Response): (r: Option<ErrorResponse>)
    ensures r.None? <==> Is2xx(resp.status)
    ensures r.Some? ==> r.value.response == resp
    ensures r.Some? && !resp.body.read.Document? ==> r.value.reason == "" && r.value.message == ""
    ensures r.Some? && resp.body.read.Document? ==>
      r.value.reason == DecodeReasonMessage(resp.body.read.doc).reason &&
      r.value.message == DecodeReasonMessage(resp.body.read.doc).message
  {
    if Is2xx(resp.status) then None
    else match resp.body.read
      case Document(doc) =>
        var d := DecodeReasonMessage(doc);
        Some(ErrorResponse(resp, d.reason, d.message))
      case _ => Some(ErrorResponse(resp, "", ""))
  }

  /** Every error CheckResponse builds can be printed and read back to its response's status. */
  lemma CheckedErrorPrintsStatus(resp: Response)
    requires !Is2xx(resp.status) && InInt32(resp.status)
    requires ' ' !in resp.request.httpMethod && ' ' !in resp.request.url
    ensures CheckResponse(resp).Some?
    ensures var line := ParseErrorText(ErrorText(CheckResponse(resp).value));
      && line.Some?
      && line.value.httpMethod == resp.request.httpMethod
      && line.value.url == resp.request.url
      && line.value.status == resp.status
  {
    var e := CheckResponse(resp).value;
    var m, u, st := resp.request.httpMethod, resp.request.url, FormatInt(resp.status);
    var rest3 := e.reason + " " + e.message;
    var rest2 := st + " " + rest3;
    var rest1 := (u + ":") + " " + rest2;
    assert ErrorText(e) == m + " " + rest1;
    Text.CutJoin(m, rest1, ' ');
    assert ' ' !in u + ":";
    Text.CutJoin(u + ":", rest2, ' ');
    FormatIntHasNoSpace(resp.status);
    Text.CutJoin(st, rest3, ' ');
    ParseFormatRoundTrip(resp.status);
    // The reason may itself hold spaces: the last cut only needs one to exist.
    assert rest3[|e.reason|] == ' ';
    assert (u + ":")[..|u + ":"| - 1] == u;
  }

  /**
   * errorResponse as the source declares it: its exported `Response` pointer
   * has no `json:"-"` tag, so json.Unmarshal matches a "Response" member of
   * the body to it, and a null there sets the pointer to nil.
   */
  datatype ErrorResponseAsWritten = ErrorResponseAsWritten(response: Option<Response>, reason: string, message: string)

  predicate NullsResponseLink(doc: Json)
  {
    doc.JObject? && "Response" in doc.members && doc.members["Response"] == JNull
  }

  /** CheckResponse as written: the error's link to the response is lost when the body sets "Response" to null. */
  function CheckResponseAsWritten(resp: Response): (r: Option<ErrorResponseAsWritten>)
    ensures r.None? <==> Is2xx(resp.status)
    ensures r.Some? ==>
      (r.value.response.None? <==> resp.body.read.Document? && NullsResponseLink(resp.body.read.doc))
    ensures r.Some? && r.value.response.Some? ==> r.value.response == Some(resp)
    ensures r.Some? && !resp.body.read.Document? ==> r.value.reason == "" && r.value.message == ""
    ensures r.Some? && resp.body.read.Document? ==>
      r.value.reason == DecodeReasonMessage(resp.body.read.doc).reason &&
      r.value.message == DecodeReasonMessage(resp.body.read.doc).message
  {
    if Is2xx(resp.status) then None
    else match resp.body.read
      case Document(doc) =>
        var d := DecodeReasonMessage(doc);
        Some(ErrorResponseAsWritten(if NullsResponseLink(doc) then None else Some(resp), d.reason, d.message))
      case _ => Some(ErrorResponseAsWritten(Some(resp), "", ""))
  }

  /** Error() as written: None stands for the nil pointer dereference of response.Response.Request. */
  function ErrorTextAsWritten(e: ErrorResponseAsWritten): (s: Option<string>)
    ensures s.None? <==> e.response.None?
  {
    match e.response
      case None => None
      case Some(resp) => Some(ErrorText(ErrorResponse(resp, e.reason, e.message)))
  }

  /** A 500 whose body is {"Response": null} yields an error whose Error() dereferences nil. */
  lemma NullResponseMemberBreaksErrorText(req: Request)
    ensures var body := Body([], Document(JObject(map["Response" := JNull])));
      var err := CheckResponseAsWritten(Response(req, 500, "", body));
      err.Some? && ErrorTextAsWritten(err.value).None?
  {
  }

  /** Without a "Response" member in the body, the source's CheckResponse and the corrected one agree. */
  lemma AsWrittenAgreesWithoutResponseMember(resp: Response)
    requires resp.body.read.Document? ==> !NullsResponseLink(resp.body.read.doc)
    ensures var w := CheckResponseAsWritten(resp);
      var c := CheckResponse(resp);
      w.Some? <==> c.Some?
    ensures var w := CheckResponseAsWritten(resp);
      var c := CheckResponse(resp);
      w.Some? ==> w.value == ErrorResponseAsWritten(Some(c.value.response), c.value.reason, c.value.message) &&
                  ErrorTextAsWritten(w.value) == Some(ErrorText(c.value))
  {
  }

  datatype Failure = TransportFailure(message: string) | ApiFailure(error: ErrorResponse) | DecodeFailure

  /** What Do returns: the response (nil on a transport failure), the error, and the target afterwards. */
  datatype Outcome = Outcome(response: Option<Response>, err: Option<Failure>, target: Target)

  /**
   * Do(req, v): send once. A transport failure returns no response; a non-2xx
   * status returns the response with CheckResponse's error and leaves the
   * target alone; on 2xx a Writer receives the raw body and any other target
   * is JSON-decoded, an empty body counting as success.
   */
  function Do(server: Server, v: Target): (o: Outcome)
    ensures o.response.None? <==> server(0).Failed?
    ensures o.response.Some? ==> o.response.value == server(0).response
    ensures o.err.None? <==>
      server(0).Received? && Is2xx(server(0).response.status) && !(v.Slot? && server(0).response.body.read.Malformed?)
    ensures o.err == Some(DecodeFailure) <==>
      server(0).Received? && Is2xx(server(0).response.status) && v.Slot? && server(0).response.body.read.Malformed?
    ensures server(0).Failed? ==> o.err == Some(TransportFailure(server(0).message))
    ensures server(0).Received? && !Is2xx(server(0).response.status) ==>
      o.err == Some(ApiFailure(CheckResponse(server(0).response).value))
    ensures v.NoTarget? ==> o.target == v
    ensures o.target != v ==> o.err.None? && (v.Writer? || server(0).response.body.read.Document?)
    ensures server(0).Received? && Is2xx(server(0).response.status) && v.Writer? ==>
      o.target == Writer(v.written + server(0).response.body.raw)
    ensures server(0).Received? && Is2xx(server(0).response.status) && v.Slot? && server(0).response.body.read.Document? ==>
      o.target == Slot(Some(server(0).response.body.read.doc))
  {
    match server(0)
      case Failed(message) => Outcome(None, Some(TransportFailure(message)), v)
      case Received(resp) =>
        match CheckResponse(resp)
          case Some(e) => Outcome(Some(resp), Some(ApiFailure(e)), v)
          case None =>
            match v
              case NoTarget => Outcome(Some(resp), None, v)
              case Writer(written) => Outcome(Some(resp), None, Writer(written + resp.body.raw))
              case Slot(_) =>
                match resp.body.read
                  case Eof => Outcome(Some(resp), None, v)
                  case Malformed => Outcome(Some(resp), Some(DecodeFailure), v)
                  case Document(doc) => Outcome(Some(resp), None, Slot(Some(doc)))
  }

  /** Do makes exactly one send: whatever the server would answer to later sends changes nothing. */
  lemma OnlyFirstReplyMatters(s1: Server, s2: Server, v: Target)
    requires s1(0) == s2(0)
    ensures Do(s1, v) == Do(s2, v)
  {
  }

  /** The graphmob client: its configuration, transport, credentials and User-Agent. */
  class Client {
    var config: ClientConfig
    var client: HttpClient
    var auth: Auth
    var baseURL: string
    var userAgent: string

    /** NewWithConfig: an empty endpoint becomes the default one, a missing HTTP client the shared default client. */
    constructor NewWithConfig(config: ClientConfig, defaultClient: HttpClient)
      ensures client == (if config.httpClient.Some? then config.httpClient.value else defaultClient)
      ensures this.config.httpClient == Some(client)
      ensures this.config.restEndpointURL == baseURL ==
        (if config.restEndpointURL == "" then DefaultRestEndpointURL else config.restEndpointURL)
      ensures userAgent == UserAgent
      ensures fresh(auth) && !auth.available && auth.username == "" && auth.password == ""
    {
      var c := config;
      if c.httpClient.None? {
        c := c.(httpClient := Some(defaultClient));
      }
      if c.restEndpointURL == "" {
        c := c.(restEndpointURL := DefaultRestEndpointURL);
      }
      this.config := c;
      client := c.httpClient.value;
      auth := new Auth();
      baseURL := c.restEndpointURL;
      userAgent := UserAgent;
    }

    /** New: NewWithConfig with an empty configuration. */
    static method New(defaultClient: HttpClient) returns (c: Client)
      ensures fresh(c) && fresh(c.auth)
      ensures c.client == defaultClient && c.baseURL == DefaultRestEndpointURL
      ensures c.userAgent == UserAgent && !c.auth.available
    {
      c := new Client.NewWithConfig(ClientConfig(None, ""), defaultClient);
    }

    /** Authenticate: store the credentials and mark them available. */
    method Authenticate(username: string, password: string)
      modifies auth
      ensures auth.available && auth.username == username && auth.password == password
    {
      auth.username := username;
      auth.password := password;
      auth.available := true;
    }

    /** NewRequest: Basic credentials exactly when Authenticate was called, JSON Accept and Content-Type, User-Agent when set. */
    method NewRequest(httpMethod: string, resolved: Result<string>, payload: Payload) returns (r: Result<Request>)
      ensures resolved.Err? ==> r == Err(resolved.error)
      ensures resolved.Ok? && payload.Unencodable? ==> r == Err(payload.reason)
      ensures resolved.Ok? && !payload.Unencodable? ==> (r.Ok? <==> ValidMethod(EffectiveMethod(httpMethod)))
      ensures r.Ok? ==>
        && r.value.httpMethod == EffectiveMethod(httpMethod)
        && r.value.url == resolved.value
        && r.value.payload == (if payload.Encoded? then Some(payload.bytes) else None)
        && (r.value.basicAuth.Some? <==> auth.available)
        && (auth.available ==> r.value.basicAuth == Some(Credentials(auth.username, auth.password)))
        && r.value.header.Keys == {"Accept", "Content-Type"} + (if userAgent != "" then {"User-Agent"} else {})
        && r.value.header["Accept"] == [AcceptContentType]
        && r.value.header["Content-Type"] == [AcceptContentType]
        && (userAgent != "" ==> r.value.header["User-Agent"] == [userAgent])
    {
      var credentials := if auth.available then Some(Credentials(auth.username, auth.password)) else None;
      r := PrepareRequest(credentials, userAgent, httpMethod, resolved, payload);
    }
  }
}

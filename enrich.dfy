/**
 * The enrich client (package enrich): its error classifier, its body decoder
 * and its poll-retry dispatcher, which re-sends a request while the server
 * answers 201 (or 404 once a retry is under way), at most three sends per call.
 */
module Enrich {
  import opened Wrappers
  import opened Decimal
  import opened Wire
  import Text

  const LibraryVersion := "1.1.2"
  const DefaultRestEndpointURL := "https://api.enrichdata.com/v1/"
  const UserAgent := "enrich-api-go/" + LibraryVersion
  const ClientTimeout := 5
  const CreatedStatusCode := 201
  const NotFoundStatusCode := 404
  const CreatedRetryCountMax := 2

  /** Go's uint8, the type of retryCount. */
  type Uint8 = x: int | 0 <= x < 256

  /** errorResponseError: the reason and message of an API error. */
  datatype ErrorResponseError = ErrorResponseError(reason: string, message: string)

  /** The error a call ends with when the server is still processing after the last allowed retry. */
  const NotFoundAfterDiscovery :=
    ErrorResponseError("not_found", "The requested item was not found, after attempted discovery.")

  /** The error checkResponse substitutes when an error body does not decode. */
  const SubmitFailed := ErrorResponseError("error", "Request could not be submitted.")

  /** errorResponseError.Error(): the reason, one space, the message. */
  function ErrorText(e: ErrorResponseError): (s: string)
    ensures ' ' !in e.reason ==> Text.Cut(s, ' ') == Some((e.reason, e.message))
  {
    Text.CutJoin(e.reason, e.message, ' ');
    e.reason + " " + e.message
  }

  /**
   * encoding/json decoding a document into errorResponse, whose only field is
   * `Error errorResponseError` under the member "error": None on a type error.
   */
  function DecodeEnvelope(j: Json): (r: Option<ErrorResponseError>)
    ensures j.JObject? && "error" in j.members && r.Some? ==>
      r.value.reason == DecodeReasonMessage(j.members["error"]).reason &&
      r.value.message == DecodeReasonMessage(j.members["error"]).message
    ensures r.Some? && (r.value.reason != "" || r.value.message != "") ==> j.JObject? && "error" in j.members
    ensures r.None? <==> (!j.JNull? && !j.JObject?) ||
                         (j.JObject? && "error" in j.members && DecodeReasonMessage(j.members["error"]).typeError)
  {
    match j
      case JNull => Some(ErrorResponseError("", ""))
      case JObject(members) =>
        if "error" !in members then Some(ErrorResponseError("", ""))
        else
          var d := DecodeReasonMessage(members["error"]);
          if d.typeError then None else Some(ErrorResponseError(d.reason, d.message))
      case _ => None
  }

  /**
   * checkResponse: no error for a 2xx status; otherwise the error the body
   * carries under "error", or SubmitFailed when the body does not decode.
   */
  function CheckResponse(resp: Response): (r: Option<ErrorResponseError>)
    ensures r.None? <==> Is2xx(resp.status)
    ensures !Is2xx(resp.status) && !resp.body.read.Document? ==> r == Some(SubmitFailed)
    ensures !Is2xx(resp.status) && resp.body.read.Document? ==>
      r == Some(match DecodeEnvelope(resp.body.read.doc) case Some(e) => e case None => SubmitFailed)
  {
    if Is2xx(resp.status) then None
    else match resp.body.read
      case Document(doc) =>
        (match DecodeEnvelope(doc)
           case Some(e) => Some(e)
           case None => Some(SubmitFailed))
      case _ => Some(SubmitFailed)
  }

  /** The result of decodeResponse and the decode target afterwards. */
  datatype Decoding = Decoding(eof: bool, target: Target)

  /**
   * decodeResponse: a Writer receives the raw body; any other non-nil target
   * is JSON-decoded; the answer is true only when that decode met an empty
   * body (io.EOF).
   */
  function DecodeResponse(body: Body, v: Target): (r: Decoding)
    ensures r.eof <==> v.Slot? && body.read.Eof?
    ensures v.NoTarget? ==> r.target == v
    ensures v.Writer? ==> r.target == Writer(v.written + body.raw)
    ensures r.target != v ==> v.Writer? || body.read.Document?
    ensures v.Slot? && body.read.Document? ==> r.target == Slot(Some(body.read.doc))
  {
    match v
      case NoTarget => Decoding(false, v)
      case Writer(written) => Decoding(false, Writer(written + body.raw))
      case Slot(_) =>
        match body.read
          case Eof => Decoding(true, v)
          case Malformed => Decoding(false, v)
          case Document(doc) => Decoding(false, Slot(Some(doc)))
  }

  /** What Do returns: the response (nil on abort or transport failure), the error, and the target afterwards. */
  datatype Failure = TransportFailure(message: string) | ApiFailure(error: ErrorResponseError)

  datatype Outcome = Outcome(response: Option<Response>, err: Option<Failure>, target: Target)

  /** One call: the hold before each send, in order (so one entry per send), and the outcome. */
  datatype Run = Run(holds: seq<int>, outcome: Outcome)

  function Aborted(v: Target): Outcome
  {
    Outcome(None, Some(ApiFailure(NotFoundAfterDiscovery)), v)
  }

  /** The reschedule test of DoInner: 201 always, 404 only once a retry has happened. */
  predicate ShouldReschedule(status: int, retryCount: int)
  {
    status == CreatedStatusCode || (retryCount > 0 && status == NotFoundStatusCode)
  }

  /** The hold before the next send: the Retry-After value when it parses as a 32-bit integer, else the previous hold. */
  function NextHold(retryAfter: string, holdForSeconds: int): (h: int)
    ensures h == (match ParseInt32(retryAfter) case Some(n) => n case None => holdForSeconds)
  {
    if retryAfter != "" then
      match ParseInt32(retryAfter)
        case Some(parsed) => parsed
        case None => holdForSeconds
    else holdForSeconds
  }

  /** How many sends a call entered with this retryCount may still make. */
  function SendsLeft(retryCount: int): nat
  {
    if retryCount > CreatedRetryCountMax then 0 else CreatedRetryCountMax + 1 - retryCount
  }

  /** What one send decides: the call ends with this outcome, or the request is sent again after this hold. */
  datatype Decision = Finish(outcome: Outcome) | Reschedule(hold: int)

  /**
   * The decision after one send, taken in DoInner from the reply alone: a
   * transport failure ends the call; a rescheduling status resends after
   * the next hold; any other status ends the call with checkResponse's error,
   * or with no error and the target decodeResponse leaves.
   */
  function Classify(reply: Reply, v: Target, retryCount: int, holdForSeconds: int): (d: Decision)
    ensures d.Reschedule? <==> reply.Received? && ShouldReschedule(reply.response.status, retryCount)
    ensures d.Reschedule? ==> d.hold == NextHold(reply.response.retryAfter, holdForSeconds)
    ensures d.Finish? ==> (d.outcome.response.None? <==> reply.Failed?)
    ensures d.Finish? && reply.Received? ==>
      d.outcome.response == Some(reply.response) &&
      (d.outcome.err.None? <==> Is2xx(reply.response.status))
    ensures d.Finish? && d.outcome.target != v ==> d.outcome.err.None?
    ensures d.Finish? && reply.Received? && d.outcome.err.None? ==>
      d.outcome.target == DecodeResponse(reply.response.body, v).target
  {
    match reply
      case Failed(message) => Finish(Outcome(None, Some(TransportFailure(message)), v))
      case Received(resp) =>
        if ShouldReschedule(resp.status, retryCount) then
          Reschedule(NextHold(resp.retryAfter, holdForSeconds))
        else
          match CheckResponse(resp)
            case Some(e) => Finish(Outcome(Some(resp), Some(ApiFailure(e)), v))
            // decodeResponse's answer only ever resets an error that is already nil.
            case None => Finish(Outcome(Some(resp), None, DecodeResponse(resp.body, v).target))
  }

  /**
   * DoInner(req, v, retryCount, holdForSeconds), with `server(k)` the reply to
   * the send made at retry count k. Abort before any hold or send once
   * retryCount exceeds 2; otherwise hold, send, and either reschedule with
   * retryCount + 1 or end the call.
   */
  function DoInner(server: Server, v: Target, retryCount: Uint8, holdForSeconds: int): (r: Run)
    decreases SendsLeft(retryCount)
  {
    if retryCount > CreatedRetryCountMax then
      Run([], Aborted(v))
    else
      match Classify(server(retryCount), v, retryCount, holdForSeconds)
        case Finish(outcome) => Run([holdForSeconds], outcome)
        case Reschedule(next) =>
          var rest := DoInner(server, v, retryCount + 1, next);
          Run([holdForSeconds] + rest.holds, rest.outcome)
  }

  /**
   * A call entered with retryCount makes at most SendsLeft(retryCount) sends;
   * below the cap it makes at least one, the first after holdForSeconds;
   * above the cap it aborts before any hold or send.
   */
  lemma {:induction false} SendBounds(server: Server, v: Target, retryCount: Uint8, holdForSeconds: int)
    ensures var r := DoInner(server, v, retryCount, holdForSeconds);
      && |r.holds| <= SendsLeft(retryCount)
      && (retryCount <= CreatedRetryCountMax ==> |r.holds| > 0 && r.holds[0] == holdForSeconds)
      && (retryCount > CreatedRetryCountMax ==> r == Run([], Aborted(v)))
    decreases SendsLeft(retryCount)
  {
    if retryCount <= CreatedRetryCountMax {
      match Classify(server(retryCount), v, retryCount, holdForSeconds)
        case Finish(_) =>
        case Reschedule(next) => SendBounds(server, v, retryCount + 1, next);
    }
  }

  /** A call to Do makes between one and three sends, the first without a hold. */
  lemma OneToThreeSends(server: Server, v: Target)
    ensures var r := DoInner(server, v, 0, 0);
      1 <= |r.holds| <= CreatedRetryCountMax + 1 && r.holds[0] == 0
  {
    SendBounds(server, v, 0, 0);
  }

  /**
   * Do(req, v), written as the loop the recursion of DoInner amounts to:
   * record each hold instead of sleeping, send, and either reschedule or
   * return. At most three sends, the first after a hold of 0.
   */
  method Do(server: Server, v: Target) returns (run: Run)
    ensures run == DoInner(server, v, 0, 0)
  {
    var retryCount: Uint8 := 0;
    var holdForSeconds := 0;
    var holds: seq<int> := [];
    ghost var whole := DoInner(server, v, 0, 0);
    ghost var remaining := whole;
    while retryCount <= CreatedRetryCountMax
      invariant retryCount <= CreatedRetryCountMax + 1
      invariant remaining == DoInner(server, v, retryCount, holdForSeconds)
      invariant whole.holds == holds + remaining.holds && whole.outcome == remaining.outcome
      decreases SendsLeft(retryCount)
    {
      ghost var before := holds;
      holds := holds + [holdForSeconds];  // time.Sleep(holdForSeconds)
      var decision := Classify(server(retryCount), v, retryCount, holdForSeconds);
      Unfold(server, v, retryCount, holdForSeconds);
      match decision {
        case Finish(outcome) =>
          return Run(holds, outcome);
        case Reschedule(next) =>
          ghost var rest := DoInner(server, v, retryCount + 1, next);
          AppendAssociates(before, [holdForSeconds], rest.holds);
          remaining := rest;
          holdForSeconds := next;
          retryCount := retryCount + 1;
      }
    }
    return Run(holds, Aborted(v));
  }

  /** One step of DoInner's recursion, spelled out for the loop in Do. */
  lemma Unfold(server: Server, v: Target, retryCount: Uint8, holdForSeconds: int)
    requires retryCount <= CreatedRetryCountMax
    ensures var d := Classify(server(retryCount), v, retryCount, holdForSeconds);
      var r := DoInner(server, v, retryCount, holdForSeconds);
      && (d.Finish? ==> r == Run([holdForSeconds], d.outcome))
      && (d.Reschedule? ==> var rest := DoInner(server, v, retryCount + 1, d.hold);
            r == Run([holdForSeconds] + rest.holds, rest.outcome))
  {
  }

  lemma AppendAssociates(a: seq<int>, b: seq<int>, c: seq<int>)
    ensures a + (b + c) == (a + b) + c
  {
  }

  /** The send at retry count k got a response that reschedules the request. */
  ghost predicate Reschedules(server: Server, k: nat)
  {
    server(k).Received? && ShouldReschedule(server(k).response.status, k)
  }

  /**
   * The holds of a call: each send after the first was preceded by a
   * rescheduling reply, and its hold is the Retry-After value of that reply
   * when it parses, else the previous hold. A call that ends before its last
   * allowed send ends on a reply that does not reschedule.
   */
  lemma {:induction false} HoldsFollowRetryAfter(server: Server, v: Target, retryCount: Uint8, holdForSeconds: int)
    requires retryCount <= CreatedRetryCountMax
    ensures var r := DoInner(server, v, retryCount, holdForSeconds);
      && (forall j :: retryCount <= j < retryCount + |r.holds| - 1 ==>
            Reschedules(server, j) &&
            r.holds[j - retryCount + 1] == NextHold(server(j).response.retryAfter, r.holds[j - retryCount]))
      && (|r.holds| < SendsLeft(retryCount) ==> !Reschedules(server, retryCount + |r.holds| - 1))
    decreases SendsLeft(retryCount)
  {
    var r := DoInner(server, v, retryCount, holdForSeconds);
    if Reschedules(server, retryCount) {
      var next := NextHold(server(retryCount).response.retryAfter, holdForSeconds);
      var rest := DoInner(server, v, retryCount + 1, next);
      assert r.holds == [holdForSeconds] + rest.holds;
      if retryCount + 1 <= CreatedRetryCountMax {
        HoldsFollowRetryAfter(server, v, retryCount + 1, next);
        forall j | retryCount + 1 <= j < retryCount + |r.holds| - 1
          ensures Reschedules(server, j) &&
                  r.holds[j - retryCount + 1] == NextHold(server(j).response.retryAfter, r.holds[j - retryCount])
        {
          assert r.holds[j - retryCount + 1] == rest.holds[j - (retryCount + 1) + 1];
          assert r.holds[j - retryCount] == rest.holds[j - (retryCount + 1)];
        }
      }
    }
  }

  /**
   * A call ends with the synthetic not_found error exactly when every send it
   * was allowed got a rescheduling reply; it then made all of those sends.
   */
  lemma {:induction false} AbortsExactlyWhenAlwaysRescheduled(server: Server, v: Target, retryCount: Uint8, holdForSeconds: int)
    requires retryCount <= CreatedRetryCountMax + 1
    ensures var r := DoInner(server, v, retryCount, holdForSeconds);
      r.outcome == Aborted(v) <==> forall k :: retryCount <= k <= CreatedRetryCountMax ==> Reschedules(server, k)
    ensures var r := DoInner(server, v, retryCount, holdForSeconds);
      r.outcome == Aborted(v) ==> |r.holds| == SendsLeft(retryCount)
    decreases SendsLeft(retryCount)
  {
    if retryCount <= CreatedRetryCountMax {
      if Reschedules(server, retryCount) {
        var next := NextHold(server(retryCount).response.retryAfter, holdForSeconds);
        AbortsExactlyWhenAlwaysRescheduled(server, v, retryCount + 1, next);
      } else {
        assert !(retryCount <= retryCount <= CreatedRetryCountMax ==> Reschedules(server, retryCount));
      }
    }
  }

  /**
   * How a call that returns a response ends: that response answered its last
   * send and did not reschedule, and the error is nil exactly when its status
   * is 2xx (a failed body decode is never reported); otherwise it is the error
   * checkResponse gives.
   */
  lemma {:induction false} ResponseOutcome(server: Server, v: Target, retryCount: Uint8, holdForSeconds: int)
    requires retryCount <= CreatedRetryCountMax
    ensures var r := DoInner(server, v, retryCount, holdForSeconds);
      var last := retryCount + |r.holds| - 1;
      r.outcome.response.Some? ==>
        && server(last) == Received(r.outcome.response.value)
        && !ShouldReschedule(r.outcome.response.value.status, last)
        && (r.outcome.err.None? <==> Is2xx(r.outcome.response.value.status))
        && (r.outcome.err.Some? ==> r.outcome.err == Some(ApiFailure(CheckResponse(r.outcome.response.value).value)))
        && (r.outcome.err.None? ==> r.outcome.target == DecodeResponse(r.outcome.response.value.body, v).target)
    decreases SendsLeft(retryCount)
  {
    if Reschedules(server, retryCount) && retryCount + 1 <= CreatedRetryCountMax {
      var next := NextHold(server(retryCount).response.retryAfter, holdForSeconds);
      ResponseOutcome(server, v, retryCount + 1, next);
    }
  }

  /** A call returns no response only by aborting or on a transport failure of its last send. */
  lemma {:induction false} NoResponseOutcome(server: Server, v: Target, retryCount: Uint8, holdForSeconds: int)
    requires retryCount <= CreatedRetryCountMax
    ensures var r := DoInner(server, v, retryCount, holdForSeconds);
      var last := retryCount + |r.holds| - 1;
      r.outcome.response.None? ==>
        r.outcome == Aborted(v) || (server(last).Failed? && r.outcome.err == Some(TransportFailure(server(last).message)))
    decreases SendsLeft(retryCount)
  {
    if Reschedules(server, retryCount) && retryCount + 1 <= CreatedRetryCountMax {
      var next := NextHold(server(retryCount).response.retryAfter, holdForSeconds);
      NoResponseOutcome(server, v, retryCount + 1, next);
    }
  }

  /** The decode target is touched only by a call that succeeds. */
  lemma {:induction false} TargetChangesOnlyOnSuccess(server: Server, v: Target, retryCount: Uint8, holdForSeconds: int)
    ensures var r := DoInner(server, v, retryCount, holdForSeconds);
      r.outcome.target != v ==> r.outcome.err.None? && r.outcome.response.Some? && Is2xx(r.outcome.response.value.status)
    decreases SendsLeft(retryCount)
  {
    if retryCount <= CreatedRetryCountMax && Reschedules(server, retryCount) {
      var next := NextHold(server(retryCount).response.retryAfter, holdForSeconds);
      TargetChangesOnlyOnSuccess(server, v, retryCount + 1, next);
    }
  }

  /** A 404 on the first send is final: one send, the response, and the error its body gives. */
  lemma FirstNotFoundIsFinal(server: Server, v: Target)
    requires server(0).Received? && server(0).response.status == NotFoundStatusCode
    ensures DoInner(server, v, 0, 0) ==
      Run([0], Outcome(Some(server(0).response), Some(ApiFailure(CheckResponse(server(0).response).value)), v))
  {
  }

  /** A 201 always reschedules, and a later 404 does too, while retries remain. */
  lemma RescheduleRules(server: Server, v: Target, retryCount: Uint8, holdForSeconds: int)
    requires retryCount <= CreatedRetryCountMax && server(retryCount).Received?
    requires server(retryCount).response.status == CreatedStatusCode ||
             (retryCount > 0 && server(retryCount).response.status == NotFoundStatusCode)
    ensures var rest := DoInner(server, v, retryCount + 1, NextHold(server(retryCount).response.retryAfter, holdForSeconds));
      DoInner(server, v, retryCount, holdForSeconds) == Run([holdForSeconds] + rest.holds, rest.outcome)
  {
  }

  /** A transport failure ends the call at once with no response and no retry. */
  lemma TransportFailureIsFinal(server: Server, v: Target, retryCount: Uint8, holdForSeconds: int)
    requires retryCount <= CreatedRetryCountMax && server(retryCount).Failed?
    ensures DoInner(server, v, retryCount, holdForSeconds) ==
      Run([holdForSeconds], Outcome(None, Some(TransportFailure(server(retryCount).message)), v))
  {
  }

  /**
   * A server that answers 201 three times, first with "Retry-After: 7", then
   * with a header that does not parse: three sends held 0, 7 and 7 seconds,
   * then the synthetic not_found error.
   */
  lemma ThreeCreatedReplies(req: Request, body: Body, v: Target)
    ensures var server: Server := k => Received(Response(req, CreatedStatusCode, if k == 0 then "7" else "soon", body));
      DoInner(server, v, 0, 0) == Run([0, 7, 7], Aborted(v))
  {
    assert Magnitude("7") == 7 by { assert "7"[..0] == ""; }
    assert ParseInt32("7") == Some(7);
    assert ParseInt32("soon") == None by { assert !IsDigit('s'); }
  }

  /** The enrich client: its configuration, transport, credentials and User-Agent. */
  class Client {
    var config: ClientConfig
    var client: HttpClient
    var auth: Auth
    var baseURL: string
    var userAgent: string

    /**
     * NewWithConfig: an empty endpoint becomes the default one; a missing
     * HTTP client becomes the shared default client, whose timeout is set to
     * five seconds.
     */
    constructor NewWithConfig(config: ClientConfig, defaultClient: HttpClient)
      modifies defaultClient
      ensures config.httpClient.Some? ==> client == config.httpClient.value && unchanged(defaultClient)
      ensures config.httpClient.None? ==> client == defaultClient && defaultClient.timeoutSeconds == ClientTimeout
      ensures this.config.httpClient == Some(client)
      ensures this.config.restEndpointURL == baseURL ==
        (if config.restEndpointURL == "" then DefaultRestEndpointURL else config.restEndpointURL)
      ensures userAgent == UserAgent
      ensures fresh(auth) && !auth.available && auth.username == "" && auth.password == ""
    {
      var c := config;
      if c.httpClient.None? {
        c := c.(httpClient := Some(defaultClient));
      }
      if c.restEndpointURL == "" {
        c := c.(restEndpointURL := DefaultRestEndpointURL);
      }
      this.config := c;
      client := c.httpClient.value;
      auth := new Auth();
      baseURL := c.restEndpointURL;
      userAgent := UserAgent;
      new;
      if config.httpClient.None? {
        defaultClient.timeoutSeconds := ClientTimeout;
      }
    }

    /** New: NewWithConfig with an empty configuration. */
    static method New(defaultClient: HttpClient) returns (c: Client)
      modifies defaultClient
      ensures fresh(c) && fresh(c.auth)
      ensures c.client == defaultClient && defaultClient.timeoutSeconds == ClientTimeout
      ensures c.baseURL == DefaultRestEndpointURL && c.userAgent == UserAgent && !c.auth.available
    {
      c := new Client.NewWithConfig(ClientConfig(None, ""), defaultClient);
    }

    /** Authenticate: store the credentials and mark them available. */
    method Authenticate(username: string, password: string)
      modifies auth
      ensures auth.available && auth.username == username && auth.password == password
    {
      auth.username := username;
      auth.password := password;
      auth.available := true;
    }

    /** NewRequest: Basic credentials exactly when Authenticate was called, JSON Accept and Content-Type, User-Agent when set. */
    method NewRequest(httpMethod: string, resolved: Result<string>, payload: Payload) returns (r: Result<Request>)
      ensures resolved.Err? ==> r == Err(resolved.error)
      ensures resolved.Ok? && payload.Unencodable? ==> r == Err(payload.reason)
      ensures resolved.Ok? && !payload.Unencodable? ==> (r.Ok? <==> ValidMethod(EffectiveMethod(httpMethod)))
      ensures r.Ok? ==>
        && r.value.httpMethod == EffectiveMethod(httpMethod)
        && r.value.url == resolved.value
        && r.value.payload == (if payload.Encoded? then Some(payload.bytes) else None)
        && (r.value.basicAuth.Some? <==> auth.available)
        && (auth.available ==> r.value.basicAuth == Some(Credentials(auth.username, auth.password)))
        && r.value.header.Keys == {"Accept", "Content-Type"} + (if userAgent != "" then {"User-Agent"} else {})
        && r.value.header["Accept"] == [AcceptContentType]
        && r.value.header["Content-Type"] == [AcceptContentType]
        && (userAgent != "" ==> r.value.header["User-Agent"] == [userAgent])
    {
      var credentials := if auth.available then Some(Credentials(auth.username, auth.password)) else None;
      r := PrepareRequest(credentials, userAgent, httpMethod, resolved, payload);
    }
  }
}

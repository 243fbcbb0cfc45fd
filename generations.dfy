/** The enrich and graphmob clients compared on the same exchanges. */
module Generations {
  import opened Wrappers
  import opened Wire
  import Enrich
  import Graphmob

  /** The nested error document {"error": {"reason": r, "message": m}} of the enrich API. */
  function NestedError(reason: string, message: string): Json
  {
    JObject(map["error" := FlatError(reason, message)])
  }

  /**
   * Both read only the status to decide whether there is an error, but they
   * read the error body in different shapes: each finds nothing in the
   * other's shape. Enrich then reports an empty reason and message (the
   * document decoded), not its "Request could not be submitted." fallback.
   */
  lemma ErrorShapesDiffer(req: Request, status: int, reason: string, message: string)
    requires !Is2xx(status)
    ensures var flat := Response(req, status, "", Body([], Document(FlatError(reason, message))));
      && Graphmob.CheckResponse(flat) == Some(Graphmob.ErrorResponse(flat, reason, message))
      && Enrich.CheckResponse(flat) == Some(Enrich.ErrorResponseError("", ""))
    ensures var nested := Response(req, status, "", Body([], Document(NestedError(reason, message))));
      && Enrich.CheckResponse(nested) == Some(Enrich.ErrorResponseError(reason, message))
      && Graphmob.CheckResponse(nested) == Some(Graphmob.ErrorResponse(nested, "", ""))
  {
    DecodeFlatError(reason, message);
  }

  /**
   * When the first reply does not make enrich retry (anything but a 201),
   * both clients make one send and return the same response and the same
   * target; their errors are nil on the same replies, except where graphmob
   * reports a body that does not decode into the target, which enrich ignores.
   */
  lemma SingleExchangeAgreement(server: Server, v: Target)
    requires !(server(0).Received? && server(0).response.status == Enrich.CreatedStatusCode)
    ensures var e := Enrich.DoInner(server, v, 0, 0);
      var g := Graphmob.Do(server, v);
      && |e.holds| == 1
      && e.outcome.response == g.response
      && e.outcome.target == g.target
      && (e.outcome.err.None? <==> g.err.None? || g.err == Some(Graphmob.DecodeFailure))
  {
  }
}

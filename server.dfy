/**
 * One request, end to end: the pre-handler hook, then (if it lets the
 * request through) the catch-all handler, with the terminal stage reached,
 * the outbound call made (if any) and the reply.
 */
module Server {
  import opened Wrappers
  import opened Http
  import opened Text
  import opened Routes
  import opened Config
  import opened Gatekeeper
  import opened Forwarder

  /** The terminal stages a request can reach. */
  datatype Stage = ShortCircuited | Rejected | NoRoute | Relayed | TransportFailed

  datatype Exchange = Exchange(stage: Stage, call: Option<Outbound>, reply: Reply)

  /** Whether some table entry's recipient is `to`. */
  predicate Routable(to: Option<string>) {
    exists i :: 0 <= i < |Table| && Matches(Table[i], to)
  }

  function Handle(req: Request, base: string, transport: Transport): (x: Exchange)
    ensures x.stage == ShortCircuited <==> req.url == ListRoutesPath
    ensures x.stage == Rejected <==> req.url != ListRoutesPath && UserAgent(req) != Some(SupportedAgent)
    ensures x.stage == NoRoute <==>
      req.url != ListRoutesPath && UserAgent(req) == Some(SupportedAgent) && !Routable(req.body.to)
    ensures x.call.Some? <==>
      req.url != ListRoutesPath && UserAgent(req) == Some(SupportedAgent) && Routable(req.body.to)
    ensures x.call.Some? ==> (x.stage == Relayed <==> transport(x.call.value).Response?)
    ensures x.call.Some? ==> (x.stage == TransportFailed <==> transport(x.call.value).Failure?)
  {
    match PreHandler(req, base)
    case Listed(r) => Exchange(ShortCircuited, None, r)
    case Refused(r) => Exchange(Rejected, None, r)
    case Admitted =>
      match Handler(req, base, transport)
      case Unrouted(r) => Exchange(NoRoute, None, r)
      case Forwarded(call, r) =>
        Exchange(if transport(call).Response? then Relayed else TransportFailed, Some(call), r)
  }

  /** `/list-routes` answers 200 with the table and base, whatever the method, headers and body. */
  lemma ListRoutesBypassesChecks(req: Request, base: string, transport: Transport)
    requires req.url == ListRoutesPath
    ensures Handle(req, base, transport) == Exchange(ShortCircuited, None, Send(200, ListingBody(base)))
  {
  }

  /** Any other request without the supported agent gets 400 naming the agent, and no call. */
  lemma UnsupportedAgentRejected(req: Request, base: string, transport: Transport)
    requires req.url != ListRoutesPath && UserAgent(req) != Some(SupportedAgent)
    ensures Handle(req, base, transport) == Exchange(Rejected, None, Send(400, UnsupportedAgentBody(UserAgent(req))))
  {
  }

  /** An admitted request for an unknown recipient gets 404 naming it, and no call. */
  lemma UnknownRecipientNotFound(req: Request, base: string, transport: Transport)
    requires req.url != ListRoutesPath && UserAgent(req) == Some(SupportedAgent)
    requires forall i :: 0 <= i < |Table| ==> !Matches(Table[i], req.body.to)
    ensures Handle(req, base, transport) == Exchange(NoRoute, None, Send(404, NoRouteBody(req.body.to)))
  {
  }

  /**
   * An admitted request for table entry `i`'s recipient is sent once, to the
   * base plus that entry's path, with the lower-cased method, the body as it
   * came, and the three allow-listed headers.
   */
  lemma KnownRecipientForwarded(req: Request, base: string, transport: Transport, i: int)
    requires req.url != ListRoutesPath && UserAgent(req) == Some(SupportedAgent)
    requires 0 <= i < |Table| && req.body.to == Some(Table[i].recipient)
    ensures Handle(req, base, transport).call ==
      Some(Outbound(ToLower(req.verb), base + Table[i].url, req.body, OutboundHeaders(req.headers)))
  {
    TableWellFormed();
    var x := Handle(req, base, transport);
    var k :| IsFirstMatch(Table, k, req.body.to) && x.call.value == NewCall(req, base, Table[k].url);
    assert k == i;
  }

  /** Every outbound call carries exactly the allow-listed headers, with the supported agent. */
  lemma ForwardedHeaders(req: Request, base: string, transport: Transport)
    requires Handle(req, base, transport).call.Some?
    ensures var h := Handle(req, base, transport).call.value.headers;
      && h.Keys == {"Content-Type", "x-forwarded-for", "user-agent"}
      && h["Content-Type"] == Some("application/json")
      && h["x-forwarded-for"] == Header(req.headers, "x-forwarded-for")
      && h["user-agent"] == Some(SupportedAgent)
  {
  }

  /**
   * Whatever response the client resolves, at any status, its status, headers
   * and data are the reply. (With this call's default options the client
   * resolves only 2xx answers; the rest arrive as a failure.)
   */
  lemma BackendResponseRelayed(req: Request, base: string, transport: Transport)
    requires Handle(req, base, transport).call.Some?
    requires transport(Handle(req, base, transport).call.value).Response?
    ensures var x := Handle(req, base, transport);
      var o := transport(x.call.value);
      x.stage == Relayed && x.reply == Reply(o.status, o.headers, o.data)
  {
  }

  /** A thrown error becomes its response's status (or 500) with `{error: true, message, details}`. */
  lemma TransportFailureNormalised(req: Request, base: string, transport: Transport)
    requires Handle(req, base, transport).call.Some?
    requires transport(Handle(req, base, transport).call.value).Failure?
    ensures var x := Handle(req, base, transport);
      var o := transport(x.call.value);
      && x.stage == TransportFailed
      && x.reply.headers == map[]
      && (o.response.Some? && o.response.value.status != 0 ==> x.reply.status == o.response.value.status)
      && (o.response.None? || o.response.value.status == 0 ==> x.reply.status == 500)
      && x.reply.body == FailureBody(o.message, o.response)
  {
  }

  /**
   * The transport is consulted for the one call only: the call does not
   * depend on it, and two transports that agree on that call give the same
   * exchange.
   */
  lemma TransportOnlyAnswersTheCall(req: Request, base: string, t1: Transport, t2: Transport)
    ensures Handle(req, base, t1).call == Handle(req, base, t2).call
    ensures var c := Handle(req, base, t1).call;
      (c.None? || t1(c.value) == t2(c.value)) ==> Handle(req, base, t1) == Handle(req, base, t2)
  {
    var x1 := Handle(req, base, t1);
    var x2 := Handle(req, base, t2);
    if x1.call.Some? {
      var k :| IsFirstMatch(Table, k, req.body.to) && x1.call.value == NewCall(req, base, Table[k].url);
      var m :| IsFirstMatch(Table, m, req.body.to) && x2.call.value == NewCall(req, base, Table[m].url);
      assert k == m;
    }
  }

  /**
   * The whole process for one request: start-up from FUNCTIONS_DOMAIN (as
   * intended: refused when unset or empty), then the exchange.
   */
  function Serve(domain: Option<string>, req: Request, transport: Transport): (x: Option<Exchange>)
    ensures x.None? <==> domain.None? || domain == Some("")
    ensures x.Some? ==> x.value == Handle(req, Scheme + domain.value, transport)
  {
    match Startup(domain)
    case None => None
    case Some(base) => Some(Handle(req, base, transport))
  }

  /** The whole process for one request as written: start-up never refuses. */
  function ServeAsWritten(domain: Option<string>, req: Request, transport: Transport): (x: Option<Exchange>)
    ensures x.Some? && x.value == Handle(req, ForwardToBase(domain), transport)
  {
    match StartupAsWritten(domain)
    case None => None
    case Some(base) => Some(Handle(req, base, transport))
  }

  /** As written, an unset domain serves every request against `https://undefined`. */
  lemma UnsetDomainServesAsWritten(req: Request, transport: Transport)
    ensures ServeAsWritten(None, req, transport) == Some(Handle(req, "https://undefined", transport))
    ensures Serve(None, req, transport).None?
  {
    UnsetDomainStartsAsWritten();
  }

  // Concrete scenarios.

  const Agent: Headers := map["user-agent" := SupportedAgent]

  function BackendAnswers42(call: Outbound): Outcome {
    Response(200, map[], Obj(map["id" := Num(42)]))
  }

  /** An extract-lead email is posted to `/backend/extract-lead` and the backend's 200 comes back. */
  lemma ExtractLeadScenario(base: string)
    ensures var req := Request("POST", "/", Agent,
        Body(Some("sclead@aiaparse.indiveloper.com"), map["subject" := Str("hi")]));
      var x := Handle(req, base, BackendAnswers42);
      && x.call.Some?
      && x.call.value.verb == "post"
      && x.call.value.url == base + "/backend/extract-lead"
      && x.call.value.data == req.body
      && x.reply == Reply(200, map[], Obj(map["id" := Num(42)]))
  {
    var req := Request("POST", "/", Agent,
      Body(Some("sclead@aiaparse.indiveloper.com"), map["subject" := Str("hi")]));
    KnownRecipientForwarded(req, base, BackendAnswers42, 0);
    assert ToLower("POST") == "post";
  }

  /** An unknown recipient gets the 404 that names it. */
  lemma UnknownRecipientScenario(base: string, transport: Transport)
    ensures var req := Request("POST", "/", Agent, Body(Some("unknown@x.com"), map[]));
      Handle(req, base, transport)
        == Exchange(NoRoute, None, Send(404, Obj(map["error" := Str("No route found for recipient unknown@x.com")])))
  {
    var req := Request("POST", "/", Agent, Body(Some("unknown@x.com"), map[]));
    assert "No route found for recipient " + "unknown@x.com" == "No route found for recipient unknown@x.com";
    UnknownRecipientNotFound(req, base, transport);
  }

  /** A curl agent gets the 400 that names it, whatever the body. */
  lemma CurlAgentScenario(base: string, transport: Transport, body: Body)
    ensures var req := Request("POST", "/", map["user-agent" := "curl/7.0"], body);
      Handle(req, base, transport)
        == Exchange(Rejected, None, Send(400, Obj(map["error" := Str("Unsupported User-Agent curl/7.0")])))
  {
    assert "Unsupported User-Agent " + "curl/7.0" == "Unsupported User-Agent curl/7.0";
  }

  /** A request without a user-agent header is rejected naming "undefined". */
  lemma MissingAgentScenario(base: string, transport: Transport, body: Body)
    ensures var req := Request("POST", "/", map[], body);
      Handle(req, base, transport)
        == Exchange(Rejected, None, Send(400, Obj(map["error" := Str("Unsupported User-Agent undefined")])))
  {
    assert "Unsupported User-Agent " + "undefined" == "Unsupported User-Agent undefined";
  }

  /** Recipient matching is case-sensitive: an upper-cased table address is not routed. */
  lemma CaseSensitiveRecipientScenario(base: string, transport: Transport)
    ensures var req := Request("POST", "/", Agent, Body(Some("SCLEAD@aiaparse.indiveloper.com"), map[]));
      Handle(req, base, transport).stage == NoRoute
  {
  }

  /** A body without a `to` field is not routed and the 404 names "undefined". */
  lemma MissingRecipientScenario(base: string, transport: Transport)
    ensures var req := Request("POST", "/", Agent, Body(None, map[]));
      Handle(req, base, transport)
        == Exchange(NoRoute, None, Send(404, Obj(map["error" := Str("No route found for recipient undefined")])))
  {
    assert "No route found for recipient " + "undefined" == "No route found for recipient undefined";
  }
}

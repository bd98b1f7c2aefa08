/**
 * The catch-all handler: route lookup, construction of the outbound call,
 * and the mapping of the backend's answer or of a transport failure onto
 * the reply.
 */
module Forwarder {
  import opened Wrappers
  import opened Http
  import opened Text
  import opened Routes

  const ContentType := "application/json"

  /** The call handed to the HTTP client: `{ method, url, data, headers }`. */
  datatype Outbound = Outbound(verb: string, url: string, data: Body, headers: map<string, Option<string>>)

  /** `error.response` of a failed call: its status and, if any, its data. */
  datatype ErrorResponse = ErrorResponse(status: int, data: Option<Json>)

  /** What the HTTP client gives back: a resolved response, or a thrown error. */
  datatype Outcome =
    | Response(status: int, headers: Headers, data: Json)
    | Failure(message: string, response: Option<ErrorResponse>)

  /** The HTTP client, seen only through what it returns for a call. */
  type Transport = Outbound -> Outcome

  /** `routes.find(r => r.recipient === to)?.url`. */
  function RoutePath(to: Option<string>): (p: Option<string>)
    ensures p.None? <==> forall i :: 0 <= i < |Table| ==> !Matches(Table[i], to)
    ensures p.Some? ==> exists i :: IsFirstMatch(Table, i, to) && p.value == Table[i].url
  {
    match Find(Table, to)
    case None => None
    case Some(r) => Some(r.url)
  }

  /** The guard `!routePath`: a path is falsy when undefined or the empty string. */
  predicate NoPath(p: Option<string>): (falsy: bool)
    ensures !falsy <==> p.Some? && |p.value| > 0
  {
    p.None? || p.value == ""
  }

  /** With this table, the truthiness guard is exactly "no recipient matched". */
  lemma NoPathIffNoRecipient(to: Option<string>)
    ensures NoPath(RoutePath(to)) <==> forall i :: 0 <= i < |Table| ==> !Matches(Table[i], to)
  {
    TableWellFormed();
    var p := RoutePath(to);
    if p.Some? {
      var i :| IsFirstMatch(Table, i, to) && p.value == Table[i].url;
      assert p.value != "";
    }
  }

  /** The recipient of a table entry resolves to that entry's path. */
  lemma TableRecipientResolves(i: int)
    requires 0 <= i < |Table|
    ensures RoutePath(Some(Table[i].recipient)) == Some(Table[i].url)
  {
    TableWellFormed();
    FindUniqueMatch(Table, i, Some(Table[i].recipient));
  }

  const NoRoutePrefix := "No route found for recipient "

  /** `{ error: "No route found for recipient ${to}" }`. */
  function NoRouteBody(to: Option<string>): (j: Json)
    ensures j.Obj? && j.fields.Keys == {"error"} && j.fields["error"].Str?
    ensures var msg := j.fields["error"].s;
      |msg| == |NoRoutePrefix| + |Show(to)| && msg[..|NoRoutePrefix|] == NoRoutePrefix && msg[|NoRoutePrefix|..] == Show(to)
  {
    Obj(map["error" := Str(NoRoutePrefix + Show(to))])
  }

  /** The allow-listed outbound headers; every other inbound header is dropped. */
  function OutboundHeaders(h: Headers): (m: map<string, Option<string>>)
    ensures m.Keys == {"Content-Type", "x-forwarded-for", "user-agent"}
    ensures m["Content-Type"] == Some(ContentType)
    ensures m["x-forwarded-for"] == Header(h, "x-forwarded-for")
    ensures m["user-agent"] == Header(h, "user-agent")
  {
    map["Content-Type" := Some(ContentType),
        "x-forwarded-for" := Header(h, "x-forwarded-for"),
        "user-agent" := Header(h, "user-agent")]
  }

  /** The outbound call for a resolved path. */
  function NewCall(req: Request, base: string, path: string): (c: Outbound)
    ensures |c.verb| == |req.verb| && NoUpper(c.verb)
    ensures forall i :: 0 <= i < |c.verb| ==> c.verb[i] == LowerChar(req.verb[i])
    ensures c.headers == OutboundHeaders(req.headers)
    ensures |c.url| == |base| + |path| && c.url[..|base|] == base && c.url[|base|..] == path
    ensures c.data == req.body
  {
    Outbound(ToLower(req.verb), base + path, req.body, OutboundHeaders(req.headers))
  }

  /** `error.response?.status || 500`: a missing or zero status becomes 500. */
  function FailureStatus(resp: Option<ErrorResponse>): (s: int)
    ensures s != 0
    ensures resp.Some? && resp.value.status != 0 ==> s == resp.value.status
    ensures resp.None? || resp.value.status == 0 ==> s == 500
  {
    if resp.Some? && resp.value.status != 0 then resp.value.status else 500
  }

  /** `error.response?.data`, which is undefined when there was no response. */
  function FailureDetails(resp: Option<ErrorResponse>): (d: Option<Json>)
    ensures d.Some? <==> resp.Some? && resp.value.data.Some?
    ensures d.Some? ==> d == resp.value.data
  {
    if resp.Some? then resp.value.data else None
  }

  /**
   * `{ error: true, message, details }`; an undefined `details` is left out
   * when the object is serialised.
   */
  function FailureBody(message: string, resp: Option<ErrorResponse>): (j: Json)
    ensures j.Obj? && "error" in j.fields && "message" in j.fields
    ensures j.fields["error"] == Bool(true) && j.fields["message"] == Str(message)
    ensures j.fields.Keys == {"error", "message"} + (if FailureDetails(resp).Some? then {"details"} else {})
    ensures "details" in j.fields ==> resp.Some? && Some(j.fields["details"]) == resp.value.data
  {
    var fields := map["error" := Bool(true), "message" := Str(message)];
    match FailureDetails(resp)
    case None => Obj(fields)
    case Some(d) => Obj(fields["details" := d])
  }

  /** The reply for what the HTTP client gave back. */
  function Relay(o: Outcome): (r: Reply)
    ensures o.Response? ==> r.status == o.status && r.headers == o.headers && r.body == o.data
    ensures o.Failure? ==> r == Send(FailureStatus(o.response), FailureBody(o.message, o.response))
  {
    match o
    case Response(status, headers, data) => Reply(status, headers, data)
    case Failure(message, resp) => Send(FailureStatus(resp), FailureBody(message, resp))
  }

  /** The handler ends with a 404 and no call, or with one call and the reply for its outcome. */
  datatype Routed = Unrouted(reply: Reply) | Forwarded(call: Outbound, reply: Reply)

  /** The `fastify.all('*')` handler, for a request the pre-handler admitted. */
  function Handler(req: Request, base: string, transport: Transport): (r: Routed)
    ensures r.Unrouted? <==> forall i :: 0 <= i < |Table| ==> !Matches(Table[i], req.body.to)
    ensures r.Unrouted? ==> r.reply == Send(404, NoRouteBody(req.body.to))
    ensures r.Forwarded? ==> r.reply == Relay(transport(r.call))
    ensures r.Forwarded? ==> exists i :: IsFirstMatch(Table, i, req.body.to) && r.call == NewCall(req, base, Table[i].url)
  {
    var routePath := RoutePath(req.body.to);
    NoPathIffNoRecipient(req.body.to);
    if NoPath(routePath) then
      Unrouted(Send(404, NoRouteBody(req.body.to)))
    else
      var call := NewCall(req, base, routePath.value);
      Forwarded(call, Relay(transport(call)))
  }
}

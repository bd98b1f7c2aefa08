/**
 * The pre-handler hook: the diagnostic `/list-routes` command and the
 * user-agent check, both run before any routing.
 */
module Gatekeeper {
  import opened Wrappers
  import opened Http
  import opened Text
  import opened Routes

  const ListRoutesPath := "/list-routes"
  const SupportedAgent := "Sendlib/1.0"

  /** `request.headers['user-agent']`. */
  function UserAgent(req: Request): Option<string> {
    Header(req.headers, "user-agent")
  }

  /** `{ routes, baseUrl: FORWARD_TO_BASE }`: every table entry in order, and the base. */
  function ListingBody(base: string): (j: Json)
    ensures j.Obj? && j.fields.Keys == {"routes", "baseUrl"}
    ensures j.fields["baseUrl"] == Str(base)
    ensures var rs := j.fields["routes"];
      rs.Arr? && |rs.items| == |Table|
      && forall i :: 0 <= i < |Table| ==>
        rs.items[i] == Obj(map["recipient" := Str(Table[i].recipient), "url" := Str(Table[i].url)])
  {
    Obj(map["routes" := TableJson(Table), "baseUrl" := Str(base)])
  }

  const UnsupportedAgentPrefix := "Unsupported User-Agent "

  /** `{ error: "Unsupported User-Agent ${agent}" }`. */
  function UnsupportedAgentBody(agent: Option<string>): (j: Json)
    ensures j.Obj? && j.fields.Keys == {"error"} && j.fields["error"].Str?
    ensures var msg := j.fields["error"].s;
      |msg| == |UnsupportedAgentPrefix| + |Show(agent)| && msg[..|UnsupportedAgentPrefix|] == UnsupportedAgentPrefix && msg[|UnsupportedAgentPrefix|..] == Show(agent)
  {
    Obj(map["error" := Str(UnsupportedAgentPrefix + Show(agent))])
  }

  /** What the hook decides: it answers the listing, rejects, or lets the handler run. */
  datatype Decision = Listed(reply: Reply) | Refused(reply: Reply) | Admitted

  function PreHandler(req: Request, base: string): (d: Decision)
    ensures d.Listed? <==> req.url == ListRoutesPath
    ensures d.Admitted? <==> req.url != ListRoutesPath && UserAgent(req) == Some(SupportedAgent)
    ensures d.Listed? ==> d.reply.status == 200 && d.reply.body == ListingBody(base)
    ensures d.Refused? ==> d.reply.status == 400 && d.reply.body == UnsupportedAgentBody(UserAgent(req))
  {
    if req.url == ListRoutesPath then
      Listed(Send(200, ListingBody(base)))
    else if UserAgent(req) != Some(SupportedAgent) then
      Refused(Send(400, UnsupportedAgentBody(UserAgent(req))))
    else
      Admitted
  }
}

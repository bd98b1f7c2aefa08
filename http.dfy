/**
 * The HTTP values the proxy sees and produces: decoded JSON, header maps,
 * the decoded inbound request and the reply the framework sends.
 */
module Http {
  import opened Wrappers

  /** A decoded JSON value (numbers are kept integral). */
  datatype Json =
    | Null
    | Bool(b: bool)
    | Num(n: int)
    | Str(s: string)
    | Arr(items: seq<Json>)
    | Obj(fields: map<string, Json>)

  /** Header names as the framework delivers them, mapped to their values. */
  type Headers = map<string, string>

  /** `request.headers[name]`: the value, or `undefined` when the header is absent. */
  function Header(h: Headers, name: string): (v: Option<string>)
    ensures v.Some? <==> name in h
    ensures v.Some? ==> v.value == h[name]
  {
    if name in h then Some(h[name]) else None
  }

  /**
   * The decoded body, split into its `to` field (`undefined` when missing)
   * and the other fields, which are carried along untouched.
   */
  datatype DecodedBody = Body(to: Option<string>, others: map<string, Json>)

  /** A body whose `to` field is held once, not also among the other fields. */
  type Body = b: DecodedBody | "to" !in b.others witness Body(None, map[])

  /** The body as the JSON object it was decoded from. */
  function BodyJson(b: Body): (j: Json)
    ensures j.Obj? && ("to" in j.fields <==> b.to.Some?)
    ensures b.to.Some? ==> j.fields["to"] == Str(b.to.value)
    ensures forall k :: k in b.others ==> k in j.fields && j.fields[k] == b.others[k]
    ensures forall k :: k in j.fields && k != "to" ==> k in b.others
  {
    match b.to
    case None => Obj(b.others)
    case Some(t) => Obj(b.others["to" := Str(t)])
  }

  /** `verb` is `request.method`, `url` is `request.url` (path and query). */
  datatype Request = Request(verb: string, url: string, headers: Headers, body: Body)

  /** What `reply.code(status).headers(headers).send(body)` puts on the wire. */
  datatype Reply = Reply(status: int, headers: Headers, body: Json)

  /** `reply.code(status).send(body)`, with no headers set by the handler. */
  function Send(status: int, body: Json): (r: Reply)
    ensures r.status == status && r.body == body && r.headers == map[]
  {
    Reply(status, map[], body)
  }
}

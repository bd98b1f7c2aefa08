# Inbound-email webhook proxy: a Dafny model

This is a model of `server.js`, an HTTP proxy for inbound e-mail notifications. Every request first goes through a pre-handler hook. The hook answers the diagnostic command `/list-routes` with the route table and the forwarding base. Otherwise it rejects any request whose `user-agent` is not exactly `Sendlib/1.0`. A request that gets through reaches the catch-all handler. The handler looks up the body's `to` address in a fixed, ordered route table. An unknown recipient gets a 404. A known recipient's request goes out as one call to `FORWARD_TO_BASE + path`. That call uses the lower-cased method, the same body and three allow-listed headers. Whatever response the HTTP client resolves is copied back verbatim. With this call's default client options, the client resolves only 2xx responses. A thrown client error is turned into a status and a `{error, message, details}` object. That covers a non-2xx backend answer too.

Each step is a pure function over request, reply and JSON values:

- `Routes`: the table and the `find` lookup.
- `Config`: `FORWARD_TO_BASE` and the start-up guard.
- `Gatekeeper`: the pre-handler hook.
- `Forwarder`: lookup, call construction and reply mapping.
- `Server`: the whole exchange.

The HTTP client is a parameter `Transport = Outbound -> Outcome`. An `Outcome` is either a resolved `Response(status, headers, data)` or a thrown `Failure(message, response?)`. `Server.Handle` returns the terminal stage reached, the outbound call made (if any) and the reply. The five stages are short-circuited, rejected, no-route, relayed and transport-failed. "No outbound call" is then the statement `call == None`.

What the code does at the points where a reader might expect otherwise:

- The client identifier is the `user-agent` header (`server.js:52`). A request without one is rejected with the message `Unsupported User-Agent undefined`.
- The outbound method is the lower-cased inbound method (`server.js:62`).
- The start-up guard on the forwarding base can never fire (`server.js:19-26`), so a missing domain starts the process against `https://undefined`; see Findings.
- The reply copies status, headers and data only from a response the HTTP client resolves (`server.js:102-105`). Anything the client throws goes through the error mapping (`server.js:114-123`). The call at `server.js:86-95` sets no status-validation option. By the client's default, only 2xx responses resolve. A backend 404 or 503 is therefore thrown. The caller keeps the status and gets `{error: true, message, details: <backend body>}` without the backend's headers.
- A `/list-routes` URL with a query string is not matched (`server.js:44`); the match is on the exact URL, whatever the method.

## Model

| member | source | states |
|---|---|---|
| Http.BodyJson | server.js:89 | the forwarded body is the decoded object: its `to` field when present, and every other field unchanged |
| Text.ToLower | server.js:62 | `verb` has the length of the method, each character is the character's lower-case form, and no upper-case letter remains |
| Text.ToLowerFixesExactlyLowerStrings | server.js:62 | lower-casing leaves a method unchanged if and only if it has no upper-case letter |
| Text.ToLowerIdempotent | server.js:62 | lower-casing a second time changes nothing |
| Routes.Find | server.js:75 | the lookup finds nothing exactly when no entry's recipient strictly equals `to`, and otherwise returns the first entry whose recipient equals `to` |
| Routes.TableWellFormed | server.js:8-14 | every table path is non-empty and the five recipients are pairwise distinct |
| Routes.FindUniqueMatch | server.js:75 | in a table with distinct recipients, the lookup returns the entry whose recipient matched, so first match is the unique match |
| Routes.TableJson | server.js:48 | the `routes` array holds one `{recipient, url}` object per table entry, in table order |
| Config.ForwardToBase | server.js:19 | the base always starts with `https://`; it is `https://` + domain, or `https://undefined` when the domain is unset |
| Config.StartupAsWritten | server.js:19-26 | start-up as written always proceeds, with the base built from the domain |
| Config.AsWrittenGuardNeverFires | server.js:19-26 | the `!FORWARD_TO_BASE` guard is false for every domain, so start-up always proceeds |
| Config.UnsetDomainStartsAsWritten | server.js:19-26 | with FUNCTIONS_DOMAIN unset, start-up as written proceeds with base `https://undefined` |
| Config.Startup | server.js:22-26 | intended start-up refuses exactly when the domain is unset or empty, and otherwise uses `https://` + domain |
| Config.StartupAgreesWhenDomainSet | server.js:19-26 | whenever intended start-up proceeds, it picks the same base as start-up as written |
| Gatekeeper.PreHandler | server.js:36-58 | the hook answers the listing exactly for URL `/list-routes` (200, table and base), lets the request through exactly when the URL differs and the agent is `Sendlib/1.0`, and otherwise answers 400 naming the agent |
| Gatekeeper.ListingBody | server.js:48 | the listing body has exactly the keys `routes` and `baseUrl`; `routes` lists every table entry in order and `baseUrl` is the base |
| Gatekeeper.UnsupportedAgentBody | server.js:56 | the 400 body has the single key `error`, whose message is `Unsupported User-Agent ` followed by the agent, or by `undefined` when it is absent |
| Forwarder.RoutePath | server.js:75 | `routePath` is undefined exactly when no recipient matches, and otherwise is the url of the first matching entry |
| Forwarder.NoPath | server.js:76 | a route path is falsy exactly when it is undefined or empty |
| Forwarder.NoPathIffNoRecipient | server.js:75-76 | with this table, the truthiness guard `!routePath` holds if and only if no recipient matched |
| Forwarder.TableRecipientResolves | server.js:8-14 | each table recipient resolves to its own entry's path, e.g. `sclead@aiaparse.indiveloper.com` to `/backend/extract-lead` |
| Forwarder.NoRouteBody | server.js:80 | the 404 body has the single key `error`, whose message is `No route found for recipient ` followed by `to`, or by `undefined` when it is absent |
| Forwarder.OutboundHeaders | server.js:90-94 | the outbound headers have exactly the keys `Content-Type`, `x-forwarded-for` and `user-agent`: `application/json` plus the two inbound values passed through, undefined when absent |
| Forwarder.NewCall | server.js:86-95 | the call's URL is the base followed by the path, its method is the inbound method with each character lower-cased, its data is the inbound body, and its headers are the allow-listed ones |
| Forwarder.FailureStatus | server.js:114 | the failure status is never 0: it is the error response's status when that is present and non-zero, and 500 otherwise |
| Forwarder.FailureDetails | server.js:118 | `details` is present exactly when the error has a response that carried data, and is then that data |
| Forwarder.FailureBody | server.js:115-119 | the failure body has `error: true` and the error's message, and a `details` key exactly when the error response carried data, equal to that data |
| Forwarder.Relay | server.js:102-123 | a resolved response is replied with its own status, headers and data; a thrown error is replied with the failure status and failure body and no headers |
| Forwarder.Handler | server.js:61-125 | the handler answers 404 naming the recipient exactly when no recipient matches; otherwise it makes one call for the first matching entry's path and replies with the relay of that call's outcome |
| Server.Handle | server.js:36-125 | each terminal stage holds exactly under its condition (listing URL; bad agent; unknown recipient); a call is made exactly when the request is admitted and routable; and the call's outcome decides between relayed and transport-failed |
| Server.ListRoutesBypassesChecks | server.js:44-49 | a `/list-routes` request gets 200 with the table and base, and no call, whatever its method, headers, body and the transport |
| Server.UnsupportedAgentRejected | server.js:52-57 | any other request whose agent is not `Sendlib/1.0` gets 400 naming the agent, and no call |
| Server.UnknownRecipientNotFound | server.js:75-81 | an admitted request whose recipient is in no entry gets 404 `No route found for recipient <to>`, and no call |
| Server.KnownRecipientForwarded | server.js:86-95 | an admitted request for entry `i`'s recipient is sent to base + that entry's path with the lower-cased method, the unchanged body and the allow-listed headers |
| Server.ForwardedHeaders | server.js:90-94 | every outbound call carries exactly the three allow-listed headers, and its `user-agent` is always `Sendlib/1.0` |
| Server.BackendResponseRelayed | server.js:102-105 | whatever response the client resolves, at any status, becomes the reply's status, headers and body (by the client's default only 2xx responses resolve) |
| Server.TransportFailureNormalised | server.js:114-123 | when the call throws, the reply status is the error response's status when that is present and non-zero, and 500 otherwise; the body is `{error: true, message, details}` |
| Server.TransportOnlyAnswersTheCall | server.js:84-124 | the outbound call does not depend on the transport, and the transport's answer to that one call is all the exchange depends on |
| Server.Serve | server.js:19-26 | the process answers nothing when the domain is unset or empty (intended start-up), and otherwise handles the request against `https://` + domain |
| Server.ServeAsWritten | server.js:19-26 | the process as written always answers, handling the request against the base built from the domain |
| Server.UnsetDomainServesAsWritten | server.js:19-26 | with the domain unset, the process as written serves every request against `https://undefined`, where intended start-up refuses |
| Server.ExtractLeadScenario | server.js:9 | a `POST` for `sclead@aiaparse.indiveloper.com` is sent as `post` to base + `/backend/extract-lead` with the same body, and the backend's 200 `{id: 42}` is replied |
| Server.UnknownRecipientScenario | server.js:76-81 | `unknown@x.com` gets 404 `No route found for recipient unknown@x.com` and no call |
| Server.CurlAgentScenario | server.js:52-57 | agent `curl/7.0` gets 400 `Unsupported User-Agent curl/7.0` whatever the body |
| Server.MissingAgentScenario | server.js:52-56 | a request with no user-agent gets 400 `Unsupported User-Agent undefined` |
| Server.CaseSensitiveRecipientScenario | server.js:75 | an upper-cased table address is not routed |
| Server.MissingRecipientScenario | server.js:75-80 | a body without `to` is not routed and gets 404 `No route found for recipient undefined` |

## Left out

- Server creation, `listen`, host and port (including the `PORT` default of 3000) and the `start()` lifecycle (`server.js:3`, `20`, `127-141`): socket I/O and process plumbing.
- The multipart plugin and body decoding (`server.js:28-33`): the library is not part of this model. The body is a decoded record: its `to` field, a string or undefined, and its other fields, which cannot include `to` again.
- A `to` field that is not a string: the model has no JS `String()` conversion for the 404 message.
- A request with no body at all: `request.body.to` then throws, and the framework's own error reply is not part of this model.
- Loading of the `.env` file and `process.exit` (`server.js:2`, `22-26`): environment and process effects. The domain is a parameter, and refusing to start is `None`.
- The HTTP client (`server.js:86-95`): a foreign network call. It is the `Transport` parameter. The model leaves open which statuses it resolves and which it throws for. With this call's default options, a non-2xx answer from the backend takes the failure path, not the verbatim relay. Also left to the client: its uppercasing of the method on the wire and its handling of undefined header values.
- The framework's own checks on `reply.code` (out-of-range statuses) and the default headers it adds to every reply.
- Logging (`console.log`, `console.error`): diagnostic only.
- Concurrency and async scheduling: nothing is shared but the constant table.
- JSON serialisation, header-name lower-casing by the framework, and multi-valued headers. Headers are a map from name to one string.
- Text.ToLower: does not model the full Unicode case mapping of `toLowerCase`, only ASCII `A`-`Z`, because HTTP method tokens are ASCII.
- JSON numbers are integers, because no decision in the core looks at a number's value.

## Findings

| source | as written | input that shows it | evidently intended | confidence | as-written member | corrected member |
|---|---|---|---|---|---|---|
| server.js:19-26 | `FORWARD_TO_BASE` is the template `https://${FUNCTIONS_DOMAIN}`, so it is never the empty string, and the guard `!FORWARD_TO_BASE` never fires | FUNCTIONS_DOMAIN unset: the process starts and forwards to `https://undefined` | refuse to start when FUNCTIONS_DOMAIN is unset or empty, as the guard's error message says | not executed | Config.UnsetDomainStartsAsWritten | Config.Startup |

/**
 * The API-key gate both servers install in front of every route
 * (src/auth.rs, dbd-agent/src/auth.rs): a request whose `x-api-key` header
 * is exactly the configured key goes on to the route; any other request,
 * including one without the header, gets 401 with the body
 * "invalid api key" and the route never runs.
 */
module Auth {
  import opened Wrappers
  import opened Http
  import Registry
  import Dump

  /** A request as the gate sees it: its key header, if any, and what else the route reads. */
  datatype Request<R> = Request(apiKeyHeader: Option<string>, rest: R)

  /** What the gate does with a request: refuses it, or hands back the route's response. */
  datatype Gated = Refused(response: Response) | Forwarded(response: Response)

  /** The header admits the request exactly when it is present and equal to the key. */
  predicate Admits(header: Option<string>, key: string)
  {
    header.Some? && header.value == key
  }

  /** `AuthMiddleware::handle` given the configured key and the route `next`. */
  function Gate<R>(key: string, req: Request<R>, next: Request<R> -> Response): (g: Gated)
    ensures g.Forwarded? <==> req.apiKeyHeader == Some(key)
    ensures g.Forwarded? ==> g.response == next(req)
    ensures g.Refused? ==> g.response == Response(StatusUnauthorized, "invalid api key")
  {
    if !Admits(req.apiKeyHeader, key) then Refused(Response(StatusUnauthorized, "invalid api key"))
    else Forwarded(next(req))
  }

  /** The polling server's gate: the key is `settings.api_key` (src/auth.rs:10-22). */
  function ServerGate<R>(settings: Registry.ServerSettings, req: Request<R>, next: Request<R> -> Response): (g: Gated)
    ensures g.Forwarded? <==> req.apiKeyHeader == Some(settings.apiKey)
    ensures g.Forwarded? ==> g.response == next(req)
    ensures g.Refused? ==> g.response == Response(StatusUnauthorized, "invalid api key")
  {
    Gate(settings.apiKey, req, next)
  }

  /** The agent's gate: the key is the single `api_key` of its state (dbd-agent/src/auth.rs:9-21). */
  function AgentGate<R>(settings: Dump.AgentSettings, req: Request<R>, next: Request<R> -> Response): (g: Gated)
    ensures g.Forwarded? <==> req.apiKeyHeader == Some(settings.apiKey)
    ensures g.Forwarded? ==> g.response == next(req)
    ensures g.Refused? ==> g.response == Response(StatusUnauthorized, "invalid api key")
  {
    Gate(settings.apiKey, req, next)
  }

  /**
   * A refusal does not depend on the route: two requests refused under
   * different routes get the same response, so nothing a route would do can
   * show through.
   */
  lemma RefusalIgnoresRoute<R>(key: string, req: Request<R>, next1: Request<R> -> Response, next2: Request<R> -> Response)
    requires !Admits(req.apiKeyHeader, key)
    ensures Gate(key, req, next1) == Gate(key, req, next2)
  {
  }
}

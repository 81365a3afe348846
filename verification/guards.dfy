/** The two request decorators of the dashboard: `with_config`, which refuses a route whose
    peripheral is not configured, and `with_json_request`, which refuses a non-JSON body.
    A handler is a function from its argument and the application state to a new state
    and a reply, so "the guard refused" also means "nothing changed". */
module Guards {
  import opened Common
  import Json

  /** The 404 reply `with_config` gives for a missing configuration key. */
  function NotConfigured(name: string): Response {
    Response(404, Text(name + " not configured"))
  }

  const BadJsonRequest := Response(400, Text("Bad json request"))

  /** `with_config(name)`: run the handler on the configured value, or answer 404 and
      leave the state alone when the name is not a key of the configuration. */
  function WithConfig<V, S>(config: map<string, V>, name: string, state: S,
                            handler: (V, S) -> (S, Response)): (r: (S, Response))
    ensures name !in config ==> r == (state, NotConfigured(name))
    ensures name in config ==> r == handler(config[name], state)
  {
    if name !in config then (state, NotConfigured(name))
    else handler(config[name], state)
  }

  /** For a handler that never answers 404 itself, the guarded route answers 404 exactly
      when the name is missing from the configuration. */
  lemma WithConfigNotFoundIff<V, S>(config: map<string, V>, name: string, state: S,
                                    handler: (V, S) -> (S, Response))
    requires forall v, s :: handler(v, s).1.status != 404
    ensures WithConfig(config, name, state, handler).1.status == 404 <==> name !in config
  {
  }

  /** `with_json_request`: `json` is `None` when the request is not JSON (`request.is_json`
      is false); otherwise the handler gets the decoded body. */
  function WithJsonRequest<S>(json: Option<Json.Value>, state: S,
                              handler: (Json.Value, S) -> (S, Response)): (r: (S, Response))
    ensures json.None? ==> r == (state, BadJsonRequest)
    ensures json.Some? ==> r == handler(json.value, state)
  {
    if json.None? then (state, BadJsonRequest) else handler(json.value, state)
  }

  /** For a handler that never answers 400 itself, the guarded route answers 400 exactly
      when the request is not JSON. */
  lemma WithJsonRequestBadIff<S>(json: Option<Json.Value>, state: S,
                                 handler: (Json.Value, S) -> (S, Response))
    requires forall v, s :: handler(v, s).1.status != 400
    ensures WithJsonRequest(json, state, handler).1.status == 400 <==> json.None?
  {
  }
}

/** The state every OCCI client keeps: its endpoint, the discovered model,
    whether it is connected, and its authentication method.  The state
    changes only through the setters below. */
module Client {
  import opened Wrappers
  import opened Uris
  import opened Categories
  import opened Strategies

  /** The path of the query interface from which the model is discovered. */
  const MODEL_URI := "/-/"

  /** An authentication method: one of the HTTP strategies, or some other
      implementation of the interface, known only by its `toString`. */
  datatype Authentication = HttpAuth(strategy: Strategy) | OtherAuth(description: string)

  datatype ClientState = ClientState(endpoint: Option<Uri>, model: Option<Model>, connected: bool,
                                     authentication: Option<Authentication>)

  /** The fields' initial values: nothing set and not connected. */
  function NewClientState(): (r: ClientState)
    ensures !r.connected && r.endpoint.None? && r.model.None? && r.authentication.None?
  {
    ClientState(None, None, false, None)
  }

  /** `setEndpoint`: the endpoint is stored normalised; `normalize` stands for
      `URI.normalize`. */
  function SetEndpoint(c: ClientState, endpoint: Uri, normalize: Uri -> Uri): (r: ClientState)
    ensures r.endpoint == Some(normalize(endpoint))
    ensures r.model == c.model && r.connected == c.connected && r.authentication == c.authentication
  {
    c.(endpoint := Some(normalize(endpoint)))
  }

  /** `setModel` replaces the model wholesale. */
  function SetModel(c: ClientState, model: Option<Model>): (r: ClientState)
    ensures r.model == model
    ensures r.endpoint == c.endpoint && r.connected == c.connected && r.authentication == c.authentication
  {
    c.(model := model)
  }

  function SetConnected(c: ClientState, connected: bool): (r: ClientState)
    ensures r.connected == connected
    ensures r.endpoint == c.endpoint && r.model == c.model && r.authentication == c.authentication
  {
    c.(connected := connected)
  }

  function SetAuthentication(c: ClientState, authentication: Option<Authentication>): (r: ClientState)
    ensures r.authentication == authentication
    ensures r.endpoint == c.endpoint && r.model == c.model && r.connected == c.connected
  {
    c.(authentication := authentication)
  }
}

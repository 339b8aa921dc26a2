/** `HTTPClient`: the OCCI client over HTTP.  Every operation is planned as a
    sequence of requests on the shared connection: it connects lazily (the
    authentication probe, then the model from the query interface), resolves
    a term or identifier to a kind's location, builds the request URL, picks
    how the body is rendered from the media type, and checks the status it
    expects.  Each operation returns the client as it left it, the outcome,
    and the requests it sent in order. */
module HttpClient {
  import opened Wrappers
  import opened Errors
  import opened Text
  import opened Headers
  import opened Uris
  import opened Categories
  import opened Http
  import opened Strategies
  import opened Platform
  import opened Client
  import HttpAuthentication
  import opened Entities

  const TEXT_OCCI := "text/occi"
  const TEXT_PLAIN := "text/plain"
  const ROOT := "/"
  const ACTION_PARAMETER := "?action="
  const LOCATION := "Location"

  /** The text parser and renderer of the OCCI core library, as oracles; None
      stands for a `ParsingException` or a `RenderingException`. */
  datatype Parser = Parser(
    parseModel: (string, string, seq<Header>) -> Option<Model>,
    parseLocations: (string, string, seq<Header>) -> Option<seq<Uri>>,
    parseCollection: (string, string, seq<Header>, CollectionType) -> Option<Collection>,
    /** `findKindType` of the model applied to the last segment of a path. */
    locationType: (Model, string) -> Option<CollectionType>,
    entityHeaders: Entity -> Option<seq<Header>>,
    entityText: Entity -> Option<string>,
    actionHeaders: ActionInstance -> seq<Header>,
    actionText: ActionInstance -> string)

  /** Everything outside the client: transport and file system, the parser,
      and `URI.normalize`. */
  datatype Env = Env(platform: Platform, parser: Parser, normalize: Uri -> Uri)

  /** The client: the state every client keeps, the target host taken from
      the endpoint as given, the media type, and the shared connection (its
      header list and the channel its HTTP client was built with). */
  datatype HttpClient = HttpClient(base: ClientState, target: string, mediaType: string,
                                   headers: seq<Header>, channel: Option<Channel>)

  /** An operation's outcome: the client after it, the result, the requests
      sent. */
  datatype Step<+T> = Step(client: HttpClient, result: Result<T>, sent: seq<Request>)

  const PARSE_FAILURE := WrappedCommunication(ParsingError(""))
  const RENDER_FAILURE := WrappedCommunication(RenderingError(""))

  function Last<T>(s: seq<T>): T
    requires s != []
  {
    s[|s| - 1]
  }

  // ---------------------------------------------------------------------
  // Requests on the connection
  // ---------------------------------------------------------------------

  /** The request as the connection's HTTP client would send it. */
  function Prepare(c: HttpClient, verb: Method, uri: string, headers: seq<Header>, payload: Payload): (r: Option<Request>)
    ensures r.Some? <==> c.channel.Some?
    ensures r.Some? ==> r.value == Request(verb, c.target, uri, headers, payload, c.channel.value)
  {
    match c.channel
    case None => None
    case Some(ch) => Some(Request(verb, c.target, uri, headers, payload, ch))
  }

  /** `runAndParseRequest`: the request must be answered with `expected`; the
      response's media type is read without parameters.  With no HTTP client
      built yet, nothing is sent and the call fails as a null dereference. */
  function Send(env: Env, c: HttpClient, verb: Method, uri: string, headers: seq<Header>, payload: Payload,
                expected: int): (r: Io<Received>)
    ensures c.channel.None? ==> r == Io(Failure(NullPointer("")), [])
    ensures c.channel.Some? ==> r.sent == [Prepare(c, verb, uri, headers, payload).value]
    ensures r.result.Success? ==>
              (c.channel.Some? &&
               var resp := env.platform.transport(r.sent[0]);
               resp.Some? && resp.value.status == expected && ReadResponse(resp.value) == r.result)
  {
    match Prepare(c, verb, uri, headers, payload)
    case None => Io(Failure(NullPointer("")), [])
    case Some(req) =>
      var run := RunRequest(env.platform.transport, req, expected);
      match run.result
      case Failure(e) => Io(Failure(e), run.sent)
      case Success(resp) => Io(ReadResponse(resp), run.sent)
  }

  /** The transport's answer to `q` read as a message, when its status is
      `expected` and it carries an entity. */
  function AnswerTo(env: Env, q: Request, expected: int): Option<Received> {
    match env.platform.transport(q)
    case None => None
    case Some(resp) =>
      if resp.status != expected then None
      else match ReadResponse(resp)
        case Failure(_) => None
        case Success(rcv) => Some(rcv)
  }

  /** `m` is the model the parser reads out of the 200 answer to `q`. */
  predicate ModelReadFrom(env: Env, q: Request, m: Model) {
    var a := AnswerTo(env, q, SC_OK);
    a.Some? && env.parser.parseModel(a.value.mediaType, a.value.body, ConvertHeaders(a.value.headers)) == Some(m)
  }

  /** `locations` is what the parser reads out of the 200 answer to `q`. */
  predicate ListedFrom(env: Env, q: Request, locations: seq<Uri>) {
    var a := AnswerTo(env, q, SC_OK);
    a.Some? && env.parser.parseLocations(a.value.mediaType, a.value.body, ConvertHeaders(a.value.headers)) == Some(locations)
  }

  /** `col` is what the parser reads, as a collection of `kindType`, out of
      the 200 answer to `q`. */
  predicate DescribedFrom(env: Env, q: Request, kindType: CollectionType, col: Collection) {
    var a := AnswerTo(env, q, SC_OK);
    a.Some? &&
    env.parser.parseCollection(a.value.mediaType, a.value.body, ConvertHeaders(a.value.headers), kindType) == Some(col)
  }

  /** `location` is the first location read out of the 201 answer to `q`. */
  predicate CreatedFrom(env: Env, q: Request, location: Uri) {
    var a := AnswerTo(env, q, SC_CREATED);
    a.Some? && FirstLocation(env, a.value) == Success(location)
  }

  /** `runRequestForStatus`: true exactly when the answer is 200. */
  function SendForStatus(env: Env, c: HttpClient, verb: Method, uri: string, headers: seq<Header>,
                         payload: Payload): (r: Io<bool>)
    ensures c.channel.None? ==> r == Io(Failure(NullPointer("")), [])
    ensures c.channel.Some? ==> r.sent == [Prepare(c, verb, uri, headers, payload).value]
    ensures r.result.Success? ==>
              (c.channel.Some? && env.platform.transport(r.sent[0]).Some? &&
               (r.result.value <==> env.platform.transport(r.sent[0]).value.status == SC_OK))
  {
    match Prepare(c, verb, uri, headers, payload)
    case None => Io(Failure(NullPointer("")), [])
    case Some(req) => RunRequestForStatus(env.platform.transport, req)
  }

  // ---------------------------------------------------------------------
  // Construction and connection
  // ---------------------------------------------------------------------

  /** The message of a connect attempt with an authentication that is not an
      HTTP strategy (`null` when there is none). */
  function NotHttpMessage(description: string): string {
    "authentication method '" + description + "' is not a valid HTTP authentication method"
  }

  /** `connect`: authenticate on the connection, mark the client connected,
      then `obtainModel`, whose connection check finds the client connected
      and goes straight to the model fetch.  The connected flag is set before
      the model is fetched, so a failed fetch leaves a connected client
      without a model. */
  function Connect(env: Env, c: HttpClient): (r: Step<()>)
    decreases 1, 0
    ensures c.base.authentication.None? ==> r == Step(c, Failure(CommunicationError(NotHttpMessage("null"))), [])
    ensures c.base.authentication.Some? && c.base.authentication.value.OtherAuth? ==>
              r == Step(c, Failure(CommunicationError(NotHttpMessage(c.base.authentication.value.description))), [])
    ensures Evolves(c, r.client)
    ensures r.client.base.connected != c.base.connected ==> r.client.base.connected
    ensures r.result.Success? ==> r.client.base.connected && r.client.channel.Some? && r.client.base.model.Some?
    ensures r.result.Success? ==> r.sent != [] && Last(r.sent).verb == Get && Last(r.sent).uri == MODEL_URI
  {
    match c.base.authentication
    case None => Step(c, Failure(CommunicationError(NotHttpMessage("null"))), [])
    case Some(OtherAuth(d)) => Step(c, Failure(CommunicationError(NotHttpMessage(d))), [])
    case Some(HttpAuth(s)) =>
      var auth := HttpAuthentication.Authenticate(env.platform, s, c.target, c.headers);
      match auth.result
      case Failure(e) => Step(c, Failure(e), auth.sent)
      case Success(est) =>
        var connected := c.(base := SetConnected(c.base, true), headers := est.headers, channel := Some(est.channel));
        var obtained := ObtainModel(env, connected);
        Step(obtained.client, obtained.result, auth.sent + obtained.sent)
  }

  /** The model fetch of `obtainModel`: GET the query interface and parse it;
      the model is replaced only when the parse succeeds. */
  function FetchModel(env: Env, c: HttpClient): (r: Step<()>)
    ensures r.result.Failure? ==> r.client == c
    ensures r.result.Success? ==> c.channel.Some? && r.client == c.(base := SetModel(c.base, r.client.base.model))
    ensures r.result.Success? ==>
              |r.sent| == 1 &&
              var resp := env.platform.transport(r.sent[0]);
              resp.Some? && resp.value.status == SC_OK && ReadResponse(resp.value).Success? &&
              var rcv := ReadResponse(resp.value).value;
              r.client.base.model == env.parser.parseModel(rcv.mediaType, rcv.body, ConvertHeaders(rcv.headers)) &&
              r.client.base.model.Some?
    ensures r.result.Success? ==> ModelReadFrom(env, r.sent[0], r.client.base.model.value)
    ensures c.channel.Some? ==> r.sent == [Prepare(c, Get, MODEL_URI, c.headers, NoPayload).value]
    ensures c.channel.None? ==> r == Step(c, Failure(NullPointer("")), [])
  {
    var got := Send(env, c, Get, MODEL_URI, c.headers, NoPayload, SC_OK);
    match got.result
    case Failure(e) => Step(c, Failure(e), got.sent)
    case Success(rcv) =>
      match env.parser.parseModel(rcv.mediaType, rcv.body, ConvertHeaders(rcv.headers))
      case None => Step(c, Failure(PARSE_FAILURE), got.sent)
      case Some(m) => Step(c.(base := SetModel(c.base, Some(m))), Success(()), got.sent)
  }

  /** `checkConnection`: a connected client is left alone; any other client
      connects, and a successful connect leaves it connected with a channel
      and a model, the model GET sent last. */
  function CheckConnection(env: Env, c: HttpClient): (r: Step<()>)
    decreases if c.base.connected then 0 else 1, 1
    ensures c.base.connected ==> r == Step(c, Success(()), [])
    ensures Evolves(c, r.client)
    ensures r.result.Success? ==> r.client.base.connected
    ensures !c.base.connected && r.result.Success? ==>
              r.client.channel.Some? && r.client.base.model.Some? &&
              r.sent != [] && Last(r.sent).verb == Get && Last(r.sent).uri == MODEL_URI
  {
    if c.base.connected then Step(c, Success(()), []) else Connect(env, c)
  }

  /** `obtainModel` (and `refresh`): make sure the client is connected, then
      fetch the model.  On a client that was not connected the model is
      fetched twice, once by the connect and once here. */
  function ObtainModel(env: Env, c: HttpClient): (r: Step<()>)
    decreases if c.base.connected then 0 else 1, 2
    ensures Evolves(c, r.client)
    ensures r.result.Success? ==> r.client.base.connected && r.client.base.model.Some?
    ensures c.base.connected ==> r == FetchModel(env, c)
    ensures r.result.Success? ==> r.sent != [] && ModelReadFrom(env, Last(r.sent), r.client.base.model.value)
    ensures !c.base.connected && r.result.Success? ==>
              exists k :: 0 < k < |r.sent| && r.sent[k - 1].uri == MODEL_URI && r.sent[k].uri == MODEL_URI
  {
    var cc := CheckConnection(env, c);
    match cc.result
    case Failure(e) => Step(cc.client, Failure(e), cc.sent)
    case Success(_) =>
      var fetched := FetchModel(env, cc.client);
      var r := Step(fetched.client, fetched.result, cc.sent + fetched.sent);
      assert !c.base.connected && r.result.Success? ==> r.sent[|cc.sent| - 1].uri == MODEL_URI && r.sent[|cc.sent|].uri == MODEL_URI;
      assert r.result.Success? ==> Last(r.sent) == fetched.sent[0];
      r
  }

  /** What no operation changes: the endpoint, the authentication, the target
      host and the media type; and a connected client stays connected. */
  predicate Evolves(c: HttpClient, d: HttpClient) {
    d.base.endpoint == c.base.endpoint && d.base.authentication == c.base.authentication &&
    d.target == c.target && d.mediaType == c.mediaType &&
    (c.base.connected ==> d.base.connected)
  }

  lemma EvolvesTransitive(a: HttpClient, b: HttpClient, c: HttpClient)
    requires Evolves(a, b) && Evolves(b, c)
    ensures Evolves(a, c)
  {
  }

  /** The constructor: the endpoint is required; a missing authentication
      means none; the endpoint is stored normalised while the target host is
      taken from the endpoint as given; the connection's headers announce the
      media type; and with `autoconnect` the client connects at once, a failed
      connect failing the construction. */
  function New(env: Env, endpoint: Option<Uri>, authentication: Option<Authentication>, mediaType: string,
               autoconnect: bool): (r: Io<HttpClient>)
    ensures endpoint.None? ==> r == Io(Failure(NullPointer("endpoint cannot be null")), [])
    ensures r.result.Success? ==>
              var d := r.result.value;
              && d.base.endpoint == Some(env.normalize(endpoint.value))
              && d.target == endpoint.value.origin
              && d.mediaType == mediaType
              && d.base.authentication == Some(if authentication.None? then HttpAuth(NewNoAuth()) else authentication.value)
              && (d.base.connected <==> autoconnect)
              && (autoconnect ==> d.base.model.Some?)
    ensures !autoconnect && endpoint.Some? ==>
              r.sent == [] && r.result.Success? && !r.result.value.base.connected &&
              r.result.value.headers == [Header(CONTENT_TYPE, mediaType), Header(ACCEPT, mediaType)]
  {
    match endpoint
    case None => Io(Failure(NullPointer("endpoint cannot be null")), [])
    case Some(ep) =>
      var auth := if authentication.None? then HttpAuth(NewNoAuth()) else authentication.value;
      var base := SetAuthentication(SetEndpoint(NewClientState(), ep, env.normalize), Some(auth));
      var c := SetClientMediaType(HttpClient(base, ep.origin, "", NoHeaders(), None), mediaType);
      if autoconnect then
        var conn := Connect(env, c);
        match conn.result
        case Failure(e) => Io(Failure(e), conn.sent)
        case Success(_) => Io(Success(conn.client), conn.sent)
      else Io(Success(c), [])
  }

  /** `setMediaType`: the client's media type and the Content-Type and Accept
      headers of its connection. */
  function SetClientMediaType(c: HttpClient, mediaType: string): (r: HttpClient)
    ensures r.mediaType == mediaType
    ensures ValueOf(r.headers, CONTENT_TYPE) == Some(mediaType) && ValueOf(r.headers, ACCEPT) == Some(mediaType)
    ensures forall n :: n != CONTENT_TYPE && n != ACCEPT ==> ValueOf(r.headers, n) == ValueOf(c.headers, n)
    ensures r == c.(mediaType := mediaType, headers := r.headers)
  {
    var withType := AddHeader(c.headers, Header(CONTENT_TYPE, mediaType));
    AddHeaderLookup(c.headers, Header(CONTENT_TYPE, mediaType), CONTENT_TYPE);
    AddHeaderLookup(withType, Header(ACCEPT, mediaType), CONTENT_TYPE);
    AddHeaderLookup(withType, Header(ACCEPT, mediaType), ACCEPT);
    c.(mediaType := mediaType, headers := SetMediaType(c.headers, mediaType))
  }

  // ---------------------------------------------------------------------
  // Lookups in the model
  // ---------------------------------------------------------------------

  /** `getModel()` dereferenced: a client whose model was never fetched fails
      as a null dereference. */
  function ModelOf(c: HttpClient): (r: Result<Model>)
    ensures r.Success? <==> c.base.model.Some?
    ensures r.Success? ==> r.value == c.base.model.value
    ensures r.Failure? ==> r.error == NullPointer("")
  {
    match c.base.model
    case None => Failure(NullPointer(""))
    case Some(m) => Success(m)
  }

  function UnknownType(term: string): Error {
    CommunicationError("unknown resource type '" + term + "'")
  }

  function UnknownIdentifier(id: Uri): Error {
    CommunicationError("unknown resource identifier '" + ToText(id) + "'")
  }

  /** `findKind(term)` as the client uses it: an ambiguous term is wrapped,
      an unknown one is reported by term. */
  function KindOfTerm(m: Model, term: string): (r: Result<Kind>)
    ensures r.Success? <==> FindKind(m, term).Found?
    ensures r.Success? ==> r.value in m.kinds && r.value.term == term
    ensures FindKind(m, term).Ambiguous? ==> r == Failure(WrappedCommunication(AmbiguousIdentifier(term)))
    ensures FindKind(m, term).NotFound? ==> r == Failure(UnknownType(term))
  {
    match FindKind(m, term)
    case Found(k) => Success(k)
    case Ambiguous => Failure(WrappedCommunication(AmbiguousIdentifier(term)))
    case NotFound => Failure(UnknownType(term))
  }

  /** `getFullUri`: a relative reference is written after the endpoint and the
      result normalised; without an endpoint that is a null dereference. */
  function Resolve(env: Env, c: HttpClient, u: Uri): (r: Result<Uri>)
    ensures HasHost(u) ==> r == Success(u)
    ensures !HasHost(u) ==> (r.Success? <==> c.base.endpoint.Some?)
    ensures !HasHost(u) && r.Success? ==> r.value == env.normalize(FullUri(c.base.endpoint.value, u))
  {
    if HasHost(u) then Success(u)
    else
      match c.base.endpoint
      case None => Failure(NullPointer(""))
      case Some(ep) => Success(env.normalize(FullUri(ep, u)))
  }

  /** `convertHeaders`: response header names are lower-cased (ASCII letters
      only here) and the values kept. */
  function ConvertHeaders(hs: seq<Header>): (r: seq<Header>)
    ensures |r| == |hs|
    ensures forall i :: 0 <= i < |hs| ==> r[i].value == hs[i].value && EqualsIgnoreCase(r[i].name, hs[i].name)
  {
    seq(|hs|, i requires 0 <= i < |hs| => Header(LowerCase(hs[i].name), hs[i].value))
  }

  function LowerCase(s: string): (r: string)
    ensures |r| == |s| && EqualsIgnoreCase(r, s)
  {
    seq(|s|, i requires 0 <= i < |s| => ToLowerAscii(s[i]))
  }

  // ---------------------------------------------------------------------
  // list
  // ---------------------------------------------------------------------

  /** `runListGet`: connect if needed, GET the prepared request, parse the
      locations out of the answer. */
  function RunListGet(env: Env, c: HttpClient, uri: string, headers: seq<Header>): (r: Step<seq<Uri>>)
    ensures Evolves(c, r.client)
    ensures c.base.connected ==> r.client == c
    ensures c.base.connected && c.channel.Some? ==> r.sent == [Prepare(c, Get, uri, headers, NoPayload).value]
    ensures r.result.Success? ==>
              r.sent != [] && Last(r.sent).verb == Get && Last(r.sent).uri == uri && Last(r.sent).headers == headers
    ensures r.result.Success? ==> r.client.base.connected && ListedFrom(env, Last(r.sent), r.result.value)
  {
    var cc := CheckConnection(env, c);
    match cc.result
    case Failure(e) => Step(cc.client, Failure(e), cc.sent)
    case Success(_) =>
      var got := Send(env, cc.client, Get, uri, headers, NoPayload, SC_OK);
      match got.result
      case Failure(e) => Step(cc.client, Failure(e), cc.sent + got.sent)
      case Success(rcv) =>
        assert Last(cc.sent + got.sent) == got.sent[0];
        match env.parser.parseLocations(rcv.mediaType, rcv.body, ConvertHeaders(rcv.headers))
        case None => Step(cc.client, Failure(PARSE_FAILURE), cc.sent + got.sent)
        case Some(locations) => Step(cc.client, Success(locations), cc.sent + got.sent)
  }

  /** `list(resourceType)`.  The empty type lists the root; its request is
      prepared before connecting, so a first connection's token is not on it.
      Any other type is looked up after connecting and its kind's location
      listed. */
  function List(env: Env, c: HttpClient, term: string): (r: Step<seq<Uri>>)
    ensures Evolves(c, r.client)
    ensures c.base.connected ==> r.client == c
    ensures term == "" ==> r == RunListGet(env, c, ROOT, c.headers)
    ensures term != "" && r.result.Success? ==>
              r.sent != [] && r.client.base.model.Some? && KindOfTerm(r.client.base.model.value, term).Success? &&
              Last(r.sent).uri == ToText(KindOfTerm(r.client.base.model.value, term).value.location) &&
              Last(r.sent).headers == r.client.headers
    ensures r.result.Success? ==> r.client.base.connected && ListedFrom(env, Last(r.sent), r.result.value)
    ensures term != "" && c.base.connected && c.base.model.Some? && FindKind(c.base.model.value, term).NotFound? ==>
              r == Step(c, Failure(UnknownType(term)), [])
    ensures term != "" && c.base.connected && c.base.model.Some? && FindKind(c.base.model.value, term).Ambiguous? ==>
              r == Step(c, Failure(WrappedCommunication(AmbiguousIdentifier(term))), [])
  {
    if term == "" then RunListGet(env, c, ROOT, c.headers)
    else
      var cc := CheckConnection(env, c);
      match cc.result
      case Failure(e) => Step(cc.client, Failure(e), cc.sent)
      case Success(_) =>
        match ModelOf(cc.client)
        case Failure(e) => Step(cc.client, Failure(e), cc.sent)
        case Success(m) =>
          match KindOfTerm(m, term)
          case Failure(e) => Step(cc.client, Failure(e), cc.sent)
          case Success(k) =>
            var listed := RunListGet(env, cc.client, ToText(k.location), cc.client.headers);
            var r := Step(listed.client, listed.result, cc.sent + listed.sent);
            assert r.result.Success? ==> Last(r.sent) == Last(listed.sent);
            r
  }

  /** `list(resourceIdentifier)`: the kind with that identifier, after
      connecting; an identifier that names no kind is an error. */
  function ListId(env: Env, c: HttpClient, id: Uri): (r: Step<seq<Uri>>)
    ensures Evolves(c, r.client)
    ensures c.base.connected ==> r.client == c
    ensures r.result.Success? ==>
              r.sent != [] && r.client.base.model.Some? && FindKindById(r.client.base.model.value, ToText(id)).Some? &&
              Last(r.sent).uri == ToText(FindKindById(r.client.base.model.value, ToText(id)).value.location)
    ensures c.base.connected && c.base.model.Some? && FindKindById(c.base.model.value, ToText(id)).None? ==>
              r == Step(c, Failure(UnknownIdentifier(id)), [])
    ensures r.result.Success? ==> r.client.base.connected && ListedFrom(env, Last(r.sent), r.result.value)
  {
    var cc := CheckConnection(env, c);
    match cc.result
    case Failure(e) => Step(cc.client, Failure(e), cc.sent)
    case Success(_) =>
      match ModelOf(cc.client)
      case Failure(e) => Step(cc.client, Failure(e), cc.sent)
      case Success(m) =>
        match FindKindById(m, ToText(id))
        case None => Step(cc.client, Failure(UnknownIdentifier(id)), cc.sent)
        case Some(k) =>
          var listed := RunListGet(env, cc.client, ToText(k.location), cc.client.headers);
          var r := Step(listed.client, listed.result, cc.sent + listed.sent);
          assert r.result.Success? ==> Last(r.sent) == Last(listed.sent);
          r
  }

  // ---------------------------------------------------------------------
  // describe
  // ---------------------------------------------------------------------

  /** `runDescribeGet`: connect if needed, GET the prepared request, parse a
      collection of the given type out of the answer. */
  function RunDescribeGet(env: Env, c: HttpClient, uri: string, headers: seq<Header>, kindType: CollectionType)
    : (r: Step<Collection>)
    ensures Evolves(c, r.client)
    ensures c.base.connected ==> r.client == c
    ensures c.base.connected && c.channel.Some? ==> r.sent == [Prepare(c, Get, uri, headers, NoPayload).value]
    ensures r.result.Success? ==> r.sent != [] && Last(r.sent).verb == Get && Last(r.sent).uri == uri
    ensures r.result.Success? ==> DescribedFrom(env, Last(r.sent), kindType, r.result.value)
  {
    var cc := CheckConnection(env, c);
    match cc.result
    case Failure(e) => Step(cc.client, Failure(e), cc.sent)
    case Success(_) =>
      var got := Send(env, cc.client, Get, uri, headers, NoPayload, SC_OK);
      match got.result
      case Failure(e) => Step(cc.client, Failure(e), cc.sent + got.sent)
      case Success(rcv) =>
        assert Last(cc.sent + got.sent) == got.sent[0];
        match env.parser.parseCollection(rcv.mediaType, rcv.body, ConvertHeaders(rcv.headers), kindType)
        case None => Step(cc.client, Failure(PARSE_FAILURE), cc.sent + got.sent)
        case Some(col) => Step(cc.client, Success(col), cc.sent + got.sent)
  }

  /** How a location is described: resolved against the endpoint with the
      type read from its last path segment, or fetched as listed with a type
      already known. */
  datatype Fetch = ByLocation | Typed(kindType: CollectionType)

  /** The request target one location is fetched from. */
  function FetchTarget(env: Env, c: HttpClient, location: Uri, fetch: Fetch): (r: Result<string>)
    ensures fetch.Typed? ==> r == Success(ToText(location))
    ensures fetch.ByLocation? && r.Success? ==>
              Resolve(env, c, location).Success? && r.value == ToText(Resolve(env, c, location).value)
  {
    match fetch
    case Typed(_) => Success(ToText(location))
    case ByLocation =>
      match Resolve(env, c, location)
      case Failure(e) => Failure(e)
      case Success(full) => Success(ToText(full))
  }

  /** The collection type a location is fetched with: the given one, or the
      type the model gives the last segment of the resolved location. */
  function FetchType(env: Env, c: HttpClient, location: Uri, fetch: Fetch): Option<CollectionType> {
    match fetch
    case Typed(t) => Some(t)
    case ByLocation =>
      match Resolve(env, c, location)
      case Failure(_) => None
      case Success(full) =>
        match c.base.model
        case None => None
        case Some(m) => env.parser.locationType(m, full.path)
  }

  /** `describeLocation` for `ByLocation`, the loop body of the typed
      `describe(locations, type)` otherwise.  A location whose type the model
      does not know is an error naming the resolved location. */
  function DescribeOne(env: Env, c: HttpClient, location: Uri, fetch: Fetch): (r: Step<Collection>)
    ensures Evolves(c, r.client)
    ensures c.base.connected ==> r.client == c
    ensures c.base.connected && r.result.Success? ==>
              FetchTarget(env, c, location, fetch).Success? && c.channel.Some? &&
              r.sent == [Prepare(c, Get, FetchTarget(env, c, location, fetch).value, c.headers, NoPayload).value]
    ensures fetch.ByLocation? && Resolve(env, c, location).Success? && c.base.model.Some? &&
            env.parser.locationType(c.base.model.value, Resolve(env, c, location).value.path).None? ==>
              r == Step(c, Failure(UnknownIdentifier(Resolve(env, c, location).value)), [])
    ensures c.base.connected && r.result.Success? ==>
              FetchType(env, c, location, fetch).Some? &&
              DescribedFrom(env, r.sent[0], FetchType(env, c, location, fetch).value, r.result.value)
  {
    match fetch
    case Typed(t) => RunDescribeGet(env, c, ToText(location), c.headers, t)
    case ByLocation =>
      match Resolve(env, c, location)
      case Failure(e) => Step(c, Failure(e), [])
      case Success(full) =>
        match ModelOf(c)
        case Failure(e) => Step(c, Failure(e), [])
        case Success(m) =>
          match env.parser.locationType(m, full.path)
          case None => Step(c, Failure(UnknownIdentifier(full)), [])
          case Some(t) => RunDescribeGet(env, c, ToText(full), c.headers, t)
  }

  /** The describe loop: every location in order, each collection merged into
      the accumulated one; the first failure ends it. */
  function DescribeEach(env: Env, c: HttpClient, locations: seq<Uri>, fetch: Fetch, acc: Collection)
    : (r: Step<Collection>)
    decreases |locations|
    ensures Evolves(c, r.client)
    ensures c.base.connected ==> r.client == c
    ensures c.base.connected && r.result.Success? ==> |r.sent| == |locations|
    ensures r.result.Success? ==>
              |acc.resources| <= |r.result.value.resources| && r.result.value.resources[..|acc.resources|] == acc.resources &&
              |acc.links| <= |r.result.value.links| && r.result.value.links[..|acc.links|] == acc.links
  {
    if locations == [] then Step(c, Success(acc), [])
    else
      var one := DescribeOne(env, c, locations[0], fetch);
      match one.result
      case Failure(e) => Step(one.client, Failure(e), one.sent)
      case Success(col) =>
        var merged := Merge(acc, col);
        var rest := DescribeEach(env, one.client, locations[1..], fetch, merged);
        var r := Step(rest.client, rest.result, one.sent + rest.sent);
        if r.result.Success? then
          PrefixOfPrefix(r.result.value.resources, merged.resources, acc.resources);
          PrefixOfPrefix(r.result.value.links, merged.links, acc.links);
          r
        else
        r
  }

  /** On a connected client a successful describe loop sends one GET per
      location, in the order of the locations, each to its fetch target. */
  lemma DescribeEachSends(env: Env, c: HttpClient, locations: seq<Uri>, fetch: Fetch, acc: Collection)
    requires c.base.connected
    ensures var r := DescribeEach(env, c, locations, fetch, acc);
            r.result.Success? ==>
              |r.sent| == |locations| && (locations != [] ==> c.channel.Some?) &&
              forall i :: 0 <= i < |locations| ==>
                FetchTarget(env, c, locations[i], fetch).Success? &&
                r.sent[i] == Prepare(c, Get, FetchTarget(env, c, locations[i], fetch).value, c.headers, NoPayload).value
  {
    var r := DescribeEach(env, c, locations, fetch, acc);
    if r.result.Success? {
      forall i | 0 <= i < |locations|
        ensures FetchTarget(env, c, locations[i], fetch).Success? &&
                r.sent[i] == Prepare(c, Get, FetchTarget(env, c, locations[i], fetch).value, c.headers, NoPayload).value
      {
        DescribeEachSent(env, c, locations, fetch, acc, r.sent, i);
      }
      if locations != [] {
        DescribeEachSent(env, c, locations, fetch, acc, r.sent, 0);
      }
    }
  }

  /** `q` is the GET that describes `location` on client `c`. */
  predicate FetchedBy(env: Env, c: HttpClient, location: Uri, fetch: Fetch, q: Request) {
    c.channel.Some? && FetchTarget(env, c, location, fetch).Success? &&
    q == Prepare(c, Get, FetchTarget(env, c, location, fetch).value, c.headers, NoPayload).value
  }

  /** The `i`-th request of a successful describe loop on a connected client. */
  lemma {:induction false} DescribeEachSent(env: Env, c: HttpClient, locations: seq<Uri>, fetch: Fetch, acc: Collection,
                                            sent: seq<Request>, i: nat)
    requires c.base.connected && i < |locations|
    requires DescribeEach(env, c, locations, fetch, acc).result.Success?
    requires DescribeEach(env, c, locations, fetch, acc).sent == sent
    ensures i < |sent| && FetchedBy(env, c, locations[i], fetch, sent[i])
    decreases i
  {
    if i == 0 {
      DescribeEachSentFirst(env, c, locations, fetch, acc, sent);
    } else {
      var merged := DescribeEachShift(env, c, locations, fetch, acc, sent, i);
      var rest := DescribeEach(env, c, locations[1..], fetch, merged);
      DescribeEachSent(env, c, locations[1..], fetch, merged, rest.sent, i - 1);
      assert locations[1..][i - 1] == locations[i];
    }
  }

  /** The first request of a successful describe loop is the first location's GET. */
  lemma DescribeEachSentFirst(env: Env, c: HttpClient, locations: seq<Uri>, fetch: Fetch, acc: Collection,
                              sent: seq<Request>)
    requires c.base.connected && locations != []
    requires DescribeEach(env, c, locations, fetch, acc).result.Success?
    requires DescribeEach(env, c, locations, fetch, acc).sent == sent
    ensures sent != [] && FetchedBy(env, c, locations[0], fetch, sent[0])
  {
    DescribeEachStep(env, c, locations, fetch, acc);
  }

  /** A later request of a successful describe loop is a request of the rest
      of the loop, run on the collection merged so far. */
  lemma DescribeEachShift(env: Env, c: HttpClient, locations: seq<Uri>, fetch: Fetch, acc: Collection,
                          sent: seq<Request>, i: nat) returns (merged: Collection)
    requires c.base.connected && 0 < i < |locations|
    requires DescribeEach(env, c, locations, fetch, acc).result.Success?
    requires DescribeEach(env, c, locations, fetch, acc).sent == sent
    ensures DescribeEach(env, c, locations[1..], fetch, merged).result.Success?
    ensures i < |sent| && i - 1 < |DescribeEach(env, c, locations[1..], fetch, merged).sent|
    ensures sent[i] == DescribeEach(env, c, locations[1..], fetch, merged).sent[i - 1]
  {
    DescribeEachStep(env, c, locations, fetch, acc);
    var one := DescribeOne(env, c, locations[0], fetch);
    merged := Merge(acc, one.result.value);
    AfterSingle(sent, one.sent, DescribeEach(env, c, locations[1..], fetch, merged).sent, i);
  }

  /** One turn of a successful describe loop on a connected client: the first
      location's request, then the rest of the loop on the merged collection. */
  lemma DescribeEachStep(env: Env, c: HttpClient, locations: seq<Uri>, fetch: Fetch, acc: Collection)
    requires c.base.connected && locations != []
    requires DescribeEach(env, c, locations, fetch, acc).result.Success?
    ensures var one := DescribeOne(env, c, locations[0], fetch);
            one.result.Success? && one.client == c &&
            var rest := DescribeEach(env, c, locations[1..], fetch, Merge(acc, one.result.value));
            rest.result.Success? &&
            DescribeEach(env, c, locations, fetch, acc).sent == one.sent + rest.sent &&
            c.channel.Some? && FetchTarget(env, c, locations[0], fetch).Success? &&
            one.sent == [Prepare(c, Get, FetchTarget(env, c, locations[0], fetch).value, c.headers, NoPayload).value]
  {
  }

  /** The collection each location describes to on client `c`, in order (an
      empty one for a location whose description fails). */
  function Collected(env: Env, c: HttpClient, locations: seq<Uri>, fetch: Fetch): seq<Collection> {
    Outcomes(Describer(env, c, fetch), locations)
  }

  /** Describing one location on client `c`, as a function of the location. */
  function Describer(env: Env, c: HttpClient, fetch: Fetch): Uri -> Result<Collection> {
    location => DescribeOne(env, c, location, fetch).result
  }

  /** `entities` is what describing `locations` on client `c` yields: every
      location is described successfully, and their collections are merged
      in order, links first. */
  predicate DescribesAll(env: Env, c: HttpClient, locations: seq<Uri>, fetch: Fetch, entities: seq<Entity>) {
    (forall i :: 0 <= i < |locations| ==> DescribeOne(env, c, locations[i], fetch).result.Success?) &&
    entities == EntityList(MergeAll(Collected(env, c, locations, fetch)))
  }

  /** A successful describe loop on a connected client appends the resources
      and links of every location's collection, in order, to the accumulated
      ones, and every location was described successfully. */
  lemma {:induction false} DescribeEachCollects(env: Env, c: HttpClient, locations: seq<Uri>, fetch: Fetch,
                                                acc: Collection)
    requires c.base.connected
    requires DescribeEach(env, c, locations, fetch, acc).result.Success?
    ensures forall i :: 0 <= i < |locations| ==> DescribeOne(env, c, locations[i], fetch).result.Success?
    ensures var col := DescribeEach(env, c, locations, fetch, acc).result.value;
            col.resources == acc.resources + AllResources(Collected(env, c, locations, fetch)) &&
            col.links == acc.links + AllLinks(Collected(env, c, locations, fetch))
    decreases |locations|
  {
    if locations != [] {
      DescribeEachResult(env, c, locations, fetch, acc);
      var col := DescribeOne(env, c, locations[0], fetch).result.value;
      var merged := Merge(acc, col);
      DescribeEachCollects(env, c, locations[1..], fetch, merged);
      OutcomesTail(Describer(env, c, fetch), locations);
      var whole := DescribeEach(env, c, locations, fetch, acc).result.value;
      assert whole == DescribeEach(env, c, locations[1..], fetch, merged).result.value;
      MergeThenConcat(acc, Collected(env, c, locations, fetch), whole);
      forall i | 0 < i < |locations|
        ensures DescribeOne(env, c, locations[i], fetch).result.Success?
      {
        assert locations[1..][i - 1] == locations[i];
      }
    }
  }

  /** A successful describe loop from the empty collection on a connected
      client describes every location and merges their collections. */
  lemma DescribeEachMerges(env: Env, c: HttpClient, locations: seq<Uri>, fetch: Fetch)
    requires c.base.connected
    requires DescribeEach(env, c, locations, fetch, EmptyCollection()).result.Success?
    ensures DescribesAll(env, c, locations, fetch,
                         EntityList(DescribeEach(env, c, locations, fetch, EmptyCollection()).result.value))
  {
    var cols := Collected(env, c, locations, fetch);
    DescribeEachCollects(env, c, locations, fetch, EmptyCollection());
    MergeAllConcatenates(cols);
    assert DescribeEach(env, c, locations, fetch, EmptyCollection()).result.value == MergeAll(cols);
  }

  /** The result of a successful describe loop on a connected client is that
      of the rest of the loop on the first collection merged in. */
  lemma DescribeEachResult(env: Env, c: HttpClient, locations: seq<Uri>, fetch: Fetch, acc: Collection)
    requires c.base.connected && locations != []
    requires DescribeEach(env, c, locations, fetch, acc).result.Success?
    ensures var one := DescribeOne(env, c, locations[0], fetch);
            one.result.Success? &&
            DescribeEach(env, c, locations, fetch, acc).result ==
              DescribeEach(env, c, locations[1..], fetch, Merge(acc, one.result.value)).result
  {
  }

  /** A prefix of a prefix is a prefix. */
  lemma PrefixOfPrefix<T>(whole: seq<T>, middle: seq<T>, front: seq<T>)
    requires |middle| <= |whole| && whole[..|middle|] == middle
    requires |front| <= |middle| && middle[..|front|] == front
    ensures whole[..|front|] == front
  {
    assert whole[..|middle|][..|front|] == whole[..|front|];
  }

  /** `describe()`: list the root, describe each location, and return the
      links before the resources. */
  function Describe(env: Env, c: HttpClient): (r: Step<seq<Entity>>)
    ensures Evolves(c, r.client)
    ensures c.base.connected ==> r.client == c
    ensures c.base.connected && r.result.Success? ==> r.sent != [] && r.sent[0].verb == Get && r.sent[0].uri == ROOT
    ensures r.result.Success? ==> exists col :: r.result.value == EntityList(col)
    ensures r.result.Success? ==>
              List(env, c, "").result.Success? &&
              DescribesAll(env, r.client, List(env, c, "").result.value, ByLocation, r.result.value)
  {
    var listed := List(env, c, "");
    match listed.result
    case Failure(e) => Step(listed.client, Failure(e), listed.sent)
    case Success(locations) =>
      var described := DescribeEach(env, listed.client, locations, ByLocation, EmptyCollection());
      match described.result
      case Failure(e) => Step(described.client, Failure(e), listed.sent + described.sent)
      case Success(col) =>
        DescribeEachMerges(env, listed.client, locations, ByLocation);
        Step(described.client, Success(EntityList(col)), listed.sent + described.sent)
  }

  /** `describe(resourceType)`: the term must name exactly one kind, and one
      whose collection type is known; its instances are listed and each
      fetched with that type. */
  function DescribeTerm(env: Env, c: HttpClient, term: string): (r: Step<seq<Entity>>)
    ensures Evolves(c, r.client)
    ensures c.base.connected ==> r.client == c
    ensures c.base.connected && c.base.model.Some? && KindOfTerm(c.base.model.value, term).Failure? ==>
              r == Step(c, KindOfTerm(c.base.model.value, term).PropagateFailure(), [])
    ensures c.base.connected && c.base.model.Some? && KindOfTerm(c.base.model.value, term).Success? &&
            KindType(KindOfTerm(c.base.model.value, term).value).None? ==>
              r == Step(c, Failure(UnknownType(term)), [])
    ensures r.result.Success? ==> exists col :: r.result.value == EntityList(col)
    ensures r.result.Success? ==>
              r.client.base.model.Some? && KindOfTerm(r.client.base.model.value, term).Success? &&
              var k := KindOfTerm(r.client.base.model.value, term).value;
              KindType(k).Some? && List(env, r.client, term).result.Success? &&
              DescribesAll(env, r.client, List(env, r.client, term).result.value, Typed(KindType(k).value), r.result.value)
  {
    var cc := CheckConnection(env, c);
    match cc.result
    case Failure(e) => Step(cc.client, Failure(e), cc.sent)
    case Success(_) =>
      match ModelOf(cc.client)
      case Failure(e) => Step(cc.client, Failure(e), cc.sent)
      case Success(m) =>
        match KindOfTerm(m, term)
        case Failure(e) => Step(cc.client, Failure(e), cc.sent)
        case Success(k) =>
          match KindType(k)
          case None => Step(cc.client, Failure(UnknownType(term)), cc.sent)
          case Some(t) =>
            var listed := List(env, cc.client, term);
            DescribeListed(env, listed, t, cc.sent)
  }

  /** `describe(locations, type)` after a list call: fetch each listed location
      with the known type. */
  function DescribeListed(env: Env, listed: Step<seq<Uri>>, t: CollectionType, before: seq<Request>)
    : (r: Step<seq<Entity>>)
    ensures Evolves(listed.client, r.client)
    ensures listed.client.base.connected ==> r.client == listed.client
    ensures listed.result.Failure? ==> r == Step(listed.client, listed.result.PropagateFailure(), before + listed.sent)
    ensures r.result.Success? ==> exists col :: r.result.value == EntityList(col)
    ensures listed.client.base.connected && r.result.Success? ==>
              listed.result.Success? && DescribesAll(env, listed.client, listed.result.value, Typed(t), r.result.value)
  {
    match listed.result
    case Failure(e) => Step(listed.client, Failure(e), before + listed.sent)
    case Success(locations) =>
      var described := DescribeEach(env, listed.client, locations, Typed(t), EmptyCollection());
      match described.result
      case Failure(e) => Step(described.client, Failure(e), before + listed.sent + described.sent)
      case Success(col) =>
        if listed.client.base.connected then
          DescribeEachMerges(env, listed.client, locations, Typed(t));
          Step(described.client, Success(EntityList(col)), before + listed.sent + described.sent)
        else
          Step(described.client, Success(EntityList(col)), before + listed.sent + described.sent)
  }

  /** `describe(resourceIdentifier)`: an identifier of a kind describes its
      instances; any other identifier is described as a location. */
  function DescribeId(env: Env, c: HttpClient, id: Uri): (r: Step<seq<Entity>>)
    ensures Evolves(c, r.client)
    ensures c.base.connected ==> r.client == c
    ensures c.base.connected && c.base.model.Some? && FindKindById(c.base.model.value, ToText(id)).Some? &&
            KindType(FindKindById(c.base.model.value, ToText(id)).value).None? ==>
              r == Step(c, Failure(UnknownIdentifier(id)), [])
    ensures c.base.connected && c.base.model.Some? && FindKindById(c.base.model.value, ToText(id)).None? &&
            r.result.Success? ==>
              |r.sent| == 1 && Resolve(env, c, id).Success? && r.sent[0].uri == ToText(Resolve(env, c, id).value)
    ensures r.result.Success? ==> exists col :: r.result.value == EntityList(col)
    ensures r.result.Success? ==>
              r.client.base.model.Some? &&
              var kind := FindKindById(r.client.base.model.value, ToText(id));
              (kind.Some? ==>
                 KindType(kind.value).Some? && ListId(env, r.client, id).result.Success? &&
                 DescribesAll(env, r.client, ListId(env, r.client, id).result.value, Typed(KindType(kind.value).value),
                              r.result.value)) &&
              (kind.None? ==> DescribesAll(env, r.client, [id], ByLocation, r.result.value))
  {
    var cc := CheckConnection(env, c);
    match cc.result
    case Failure(e) => Step(cc.client, Failure(e), cc.sent)
    case Success(_) =>
      match ModelOf(cc.client)
      case Failure(e) => Step(cc.client, Failure(e), cc.sent)
      case Success(m) =>
        match FindKindById(m, ToText(id))
        case Some(k) =>
          (match KindType(k)
           case None => Step(cc.client, Failure(UnknownIdentifier(id)), cc.sent)
           case Some(t) =>
             var listed := ListId(env, cc.client, id);
             DescribeListed(env, listed, t, cc.sent))
        case None => DescribeLocation(env, cc.client, id, cc.sent)
  }

  /** `describe(resourceIdentifier)` for an identifier that names no kind: the
      identifier is described as a single location, after the requests
      `before`. */
  function DescribeLocation(env: Env, c: HttpClient, id: Uri, before: seq<Request>): (r: Step<seq<Entity>>)
    ensures Evolves(c, r.client)
    ensures c.base.connected ==> r.client == c
    ensures c.base.connected && r.result.Success? ==>
              |r.sent| == |before| + 1 && r.sent[..|before|] == before &&
              Resolve(env, c, id).Success? && Last(r.sent).uri == ToText(Resolve(env, c, id).value) &&
              DescribesAll(env, c, [id], ByLocation, r.result.value)
  {
    var one := DescribeOne(env, c, id, ByLocation);
    match one.result
    case Failure(e) => Step(one.client, Failure(e), before + one.sent)
    case Success(col) =>
      SingleOutcome(Describer(env, c, ByLocation), id);
      var r := Step(one.client, Success(EntityList(col)), before + one.sent);
      assert c.base.connected ==> Last(r.sent) == one.sent[0] && r.sent[..|before|] == before;
      r
  }

  // ---------------------------------------------------------------------
  // create, delete, trigger
  // ---------------------------------------------------------------------

  function UnsupportedMediaType(mediaType: string): Error {
    CommunicationError("unsupported media type '" + mediaType + "'")
  }

  /** The body of a POST chosen by the media type: for `text/occi` the
      rendered headers are appended to the request's headers, for
      `text/plain` the rendered text is the body; other media types are
      refused.  None stands for a rendering that failed. */
  function Render(mediaType: string, headers: seq<Header>, asHeaders: Option<seq<Header>>, asText: Option<string>)
    : (r: Result<(seq<Header>, Payload)>)
    ensures r.Success? <==> (mediaType == TEXT_OCCI && asHeaders.Some?) || (mediaType == TEXT_PLAIN && asText.Some?)
    ensures r.Success? && mediaType == TEXT_OCCI ==>
              |r.value.0| == |headers| + |asHeaders.value| && r.value.0[..|headers|] == headers &&
              r.value.0[|headers|..] == asHeaders.value && r.value.1 == NoPayload
    ensures r.Success? && mediaType == TEXT_PLAIN ==> r.value.0 == headers && r.value.1 == TextPayload(asText.value)
    ensures mediaType != TEXT_OCCI && mediaType != TEXT_PLAIN ==> r == Failure(UnsupportedMediaType(mediaType))
    ensures r.Failure? && (mediaType == TEXT_OCCI || mediaType == TEXT_PLAIN) ==> r.error == RENDER_FAILURE
  {
    if mediaType == TEXT_OCCI then
      match asHeaders
      case None => Failure(RENDER_FAILURE)
      case Some(hs) => Success((headers + hs, NoPayload))
    else if mediaType == TEXT_PLAIN then
      match asText
      case None => Failure(RENDER_FAILURE)
      case Some(t) => Success((headers, TextPayload(t)))
    else Failure(UnsupportedMediaType(mediaType))
  }

  /** The workaround for servers that answer a create in plain text with a
      bare "OK" and the location in a header: such an answer is read as
      `text/occi`. */
  function CreatedMediaType(rcv: Received): (r: string)
    ensures r == rcv.mediaType || r == TEXT_OCCI
    ensures r != rcv.mediaType <==>
              rcv.mediaType != TEXT_OCCI && Trim(rcv.body) == "OK" && FirstHeader(rcv.headers, LOCATION).Some?
  {
    if rcv.mediaType != TEXT_OCCI && Trim(rcv.body) == "OK" && FirstHeader(rcv.headers, LOCATION).Some? then TEXT_OCCI
    else rcv.mediaType
  }

  /** `create(entity)`: POST the rendered entity to its kind's location,
      expecting 201, and return the first location in the answer.  The
      request is prepared before connecting, so it carries the headers the
      connection had at the call. */
  function Create(env: Env, c: HttpClient, entity: Entity): (r: Step<Uri>)
    ensures Evolves(c, r.client)
    ensures c.base.connected ==> r.client == c
    ensures entity.kind.None? ==> r == Step(c, Failure(CommunicationError("entity with empty kind")), [])
    ensures entity.kind.Some? && c.mediaType != TEXT_OCCI && c.mediaType != TEXT_PLAIN ==>
              r == Step(c, Failure(UnsupportedMediaType(c.mediaType)), [])
    ensures r.result.Success? ==>
              entity.kind.Some? && r.sent != [] &&
              var post := Last(r.sent);
              && post.verb == Post && post.uri == ToText(entity.kind.value.location)
              && |post.headers| >= |c.headers| && post.headers[..|c.headers|] == c.headers
              && env.platform.transport(post).Some? && env.platform.transport(post).value.status == SC_CREATED
    ensures r.result.Success? ==> CreatedFrom(env, Last(r.sent), r.result.value)
  {
    match entity.kind
    case None => Step(c, Failure(CommunicationError("entity with empty kind")), [])
    case Some(k) =>
      match Render(c.mediaType, c.headers, env.parser.entityHeaders(entity), env.parser.entityText(entity))
      case Failure(e) => Step(c, Failure(e), [])
      case Success(prepared) => PostEntity(env, c, ToText(k.location), prepared.0, prepared.1)
  }

  /** The POST of a create, sent after the connection check: a success is a
      201 answer to that POST, the last request sent, and the location read
      from the answer. */
  function PostEntity(env: Env, c: HttpClient, uri: string, headers: seq<Header>, payload: Payload): (r: Step<Uri>)
    ensures Evolves(c, r.client)
    ensures c.base.connected ==> r.client == c
    ensures r.result.Success? ==>
              r.sent != [] &&
              var post := Last(r.sent);
              && post.verb == Post && post.uri == uri && post.headers == headers && post.payload == payload
              && env.platform.transport(post).Some? && env.platform.transport(post).value.status == SC_CREATED
    ensures r.result.Success? ==> CreatedFrom(env, Last(r.sent), r.result.value)
  {
    var cc := CheckConnection(env, c);
    match cc.result
    case Failure(e) => Step(cc.client, Failure(e), cc.sent)
    case Success(_) =>
      var got := Send(env, cc.client, Post, uri, headers, payload, SC_CREATED);
      match got.result
      case Failure(e) => Step(cc.client, Failure(e), cc.sent + got.sent)
      case Success(rcv) =>
        var r := Step(cc.client, FirstLocation(env, rcv), cc.sent + got.sent);
        assert r.result.Success? ==> Last(r.sent) == got.sent[0];
        r
  }

  /** The answer to a create: the first location parsed out of it. */
  function FirstLocation(env: Env, rcv: Received): (r: Result<Uri>)
    ensures r.Success? <==> var locations := env.parser.parseLocations(CreatedMediaType(rcv), rcv.body, ConvertHeaders(rcv.headers));
                           locations.Some? && locations.value != []
    ensures r.Success? ==> r.value == env.parser.parseLocations(CreatedMediaType(rcv), rcv.body, ConvertHeaders(rcv.headers)).value[0]
    ensures env.parser.parseLocations(CreatedMediaType(rcv), rcv.body, ConvertHeaders(rcv.headers)) == Some([]) ==>
              r == Failure(CommunicationError("no location returned"))
  {
    match env.parser.parseLocations(CreatedMediaType(rcv), rcv.body, ConvertHeaders(rcv.headers))
    case None => Failure(PARSE_FAILURE)
    case Some(locations) =>
      if locations == [] then Failure(CommunicationError("no location returned")) else Success(locations[0])
  }

  /** The location of the kind a term names, looked up after connecting. */
  function KindLocation(env: Env, c: HttpClient, term: string): (r: Step<string>)
    ensures Evolves(c, r.client)
    ensures c.base.connected ==> r.client == c && r.sent == []
    ensures r.result.Success? ==>
              r.client.base.connected && r.client.base.model.Some? &&
              KindOfTerm(r.client.base.model.value, term).Success? &&
              r.result.value == ToText(KindOfTerm(r.client.base.model.value, term).value.location)
    ensures c.base.connected && c.base.model.Some? && KindOfTerm(c.base.model.value, term).Failure? ==>
              r == Step(c, KindOfTerm(c.base.model.value, term).PropagateFailure(), [])
  {
    var cc := CheckConnection(env, c);
    match cc.result
    case Failure(e) => Step(cc.client, Failure(e), cc.sent)
    case Success(_) =>
      match ModelOf(cc.client)
      case Failure(e) => Step(cc.client, Failure(e), cc.sent)
      case Success(m) =>
        match KindOfTerm(m, term)
        case Failure(e) => Step(cc.client, Failure(e), cc.sent)
        case Success(k) => Step(cc.client, Success(ToText(k.location)), cc.sent)
  }

  /** Where an identifier's requests go: its kind's location when it names a
      kind, otherwise the identifier resolved against the endpoint.  Looked
      up after connecting. */
  function ConnectedTarget(env: Env, c: HttpClient, id: Uri): (r: Step<string>)
    ensures Evolves(c, r.client)
    ensures c.base.connected ==> r.client == c && r.sent == []
    ensures r.result.Success? ==>
              r.client.base.connected && r.client.base.model.Some? &&
              var m := r.client.base.model.value;
              (FindKindById(m, ToText(id)).Some? ==> r.result.value == ToText(FindKindById(m, ToText(id)).value.location)) &&
              (FindKindById(m, ToText(id)).None? ==>
                 Resolve(env, r.client, id).Success? && r.result.value == ToText(Resolve(env, r.client, id).value))
  {
    var cc := CheckConnection(env, c);
    match cc.result
    case Failure(e) => Step(cc.client, Failure(e), cc.sent)
    case Success(_) =>
      match ModelOf(cc.client)
      case Failure(e) => Step(cc.client, Failure(e), cc.sent)
      case Success(m) =>
        match FindKindById(m, ToText(id))
        case Some(k) => Step(cc.client, Success(ToText(k.location)), cc.sent)
        case None =>
          match Resolve(env, cc.client, id)
          case Failure(e) => Step(cc.client, Failure(e), cc.sent)
          case Success(full) => Step(cc.client, Success(ToText(full)), cc.sent)
  }

  /** The request of a delete or trigger once its target is known: for a
      trigger the action is rendered by the media type, and the answer counts
      as success exactly when it is 200.  The connection is established by
      then, so the second connection check does nothing. */
  function SendStatus(env: Env, prior: Step<string>, verb: Method, suffix: string, action: Option<ActionInstance>)
    : (r: Step<bool>)
    ensures r.client == prior.client
    ensures prior.result.Failure? ==> r == Step(prior.client, prior.result.PropagateFailure(), prior.sent)
    ensures prior.result.Success? && action.Some? && prior.client.mediaType != TEXT_OCCI &&
            prior.client.mediaType != TEXT_PLAIN ==>
              r == Step(prior.client, Failure(UnsupportedMediaType(prior.client.mediaType)), prior.sent)
    ensures r.result.Success? ==>
              prior.result.Success? && |r.sent| == |prior.sent| + 1 && r.sent[..|prior.sent|] == prior.sent &&
              var q := Last(r.sent);
              && q.verb == verb && q.uri == prior.result.value + suffix && Some(q.channel) == prior.client.channel
              && |q.headers| >= |prior.client.headers| && q.headers[..|prior.client.headers|] == prior.client.headers
              && env.platform.transport(q).Some?
              && (r.result.value <==> env.platform.transport(q).value.status == SC_OK)
  {
    match prior.result
    case Failure(e) => Step(prior.client, Failure(e), prior.sent)
    case Success(target) =>
      var c := prior.client;
      var prepared :=
        match action
        case None => Success((c.headers, NoPayload))
        case Some(a) => Render(c.mediaType, c.headers, Some(env.parser.actionHeaders(a)), Some(env.parser.actionText(a)));
      match prepared
      case Failure(e) => Step(c, Failure(e), prior.sent)
      case Success(p) =>
        var sent := SendForStatus(env, c, verb, target + suffix, p.0, p.1);
        var r := Step(c, sent.result, prior.sent + sent.sent);
        assert r.result.Success? ==> r.sent[..|prior.sent|] == prior.sent && Last(r.sent) == sent.sent[0];
        assert p.0[..|c.headers|] == c.headers;
        r
  }

  /** The last request sent was answered, and `ok` says whether with 200. */
  predicate StatusAnswer(env: Env, sent: seq<Request>, ok: bool) {
    sent != [] && env.platform.transport(Last(sent)).Some? &&
    (ok <==> env.platform.transport(Last(sent)).value.status == SC_OK)
  }

  /** The query string that triggers an action. */
  function ActionSuffix(a: ActionInstance): string {
    ACTION_PARAMETER + a.action.term
  }

  /** `delete(resourceType)`: DELETE the location of the kind the term names. */
  function DeleteTerm(env: Env, c: HttpClient, term: string): (r: Step<bool>)
    ensures Evolves(c, r.client)
    ensures c.base.connected ==> r.client == c
    ensures c.base.connected && c.base.model.Some? && KindOfTerm(c.base.model.value, term).Failure? ==>
              r == Step(c, KindOfTerm(c.base.model.value, term).PropagateFailure(), [])
    ensures r.result.Success? ==>
              StatusAnswer(env, r.sent, r.result.value) &&
              r.client.base.model.Some? && KindOfTerm(r.client.base.model.value, term).Success? &&
              Last(r.sent).verb == Delete && Last(r.sent).uri == ToText(KindOfTerm(r.client.base.model.value, term).value.location)
  {
    SendStatus(env, KindLocation(env, c, term), Delete, "", None)
  }

  /** `delete(resourceIdentifier)`: DELETE the kind's location when the
      identifier names a kind, the resolved identifier otherwise. */
  function DeleteId(env: Env, c: HttpClient, id: Uri): (r: Step<bool>)
    ensures Evolves(c, r.client)
    ensures c.base.connected ==> r.client == c
    ensures c.base.connected && r.result.Success? ==>
              |r.sent| == 1 && r.sent[0].verb == Delete && r.sent[0].headers == c.headers
    ensures r.result.Success? ==>
              StatusAnswer(env, r.sent, r.result.value) && r.client.base.model.Some? &&
              var m := r.client.base.model.value;
              (FindKindById(m, ToText(id)).Some? ==> Last(r.sent).uri == ToText(FindKindById(m, ToText(id)).value.location)) &&
              (FindKindById(m, ToText(id)).None? ==>
                 Resolve(env, r.client, id).Success? && Last(r.sent).uri == ToText(Resolve(env, r.client, id).value))
  {
    SendStatus(env, ConnectedTarget(env, c, id), Delete, "", None)
  }

  /** `trigger(resourceType, action)`: POST the rendered action to the kind's
      location with the action named in the query. */
  function TriggerTerm(env: Env, c: HttpClient, term: string, action: ActionInstance): (r: Step<bool>)
    ensures Evolves(c, r.client)
    ensures c.base.connected ==> r.client == c
    ensures c.base.connected && c.base.model.Some? && KindOfTerm(c.base.model.value, term).Failure? ==>
              r == Step(c, KindOfTerm(c.base.model.value, term).PropagateFailure(), [])
    ensures c.base.connected && c.base.model.Some? && KindOfTerm(c.base.model.value, term).Success? &&
            c.mediaType != TEXT_OCCI && c.mediaType != TEXT_PLAIN ==>
              r == Step(c, Failure(UnsupportedMediaType(c.mediaType)), [])
    ensures r.result.Success? ==>
              StatusAnswer(env, r.sent, r.result.value) &&
              r.client.base.model.Some? && KindOfTerm(r.client.base.model.value, term).Success? &&
              Last(r.sent).verb == Post &&
              Last(r.sent).uri == ToText(KindOfTerm(r.client.base.model.value, term).value.location) + ActionSuffix(action)
  {
    SendStatus(env, KindLocation(env, c, term), Post, ActionSuffix(action), Some(action))
  }

  /** `trigger(resourceIdentifier, action)`: as by term, at the kind's
      location or at the resolved identifier. */
  function TriggerId(env: Env, c: HttpClient, id: Uri, action: ActionInstance): (r: Step<bool>)
    ensures Evolves(c, r.client)
    ensures c.base.connected ==> r.client == c
    ensures c.base.connected && c.base.model.Some? && c.mediaType != TEXT_OCCI && c.mediaType != TEXT_PLAIN &&
            (FindKindById(c.base.model.value, ToText(id)).Some? || HasHost(id) || c.base.endpoint.Some?) ==>
              r == Step(c, Failure(UnsupportedMediaType(c.mediaType)), [])
    ensures r.result.Success? ==>
              StatusAnswer(env, r.sent, r.result.value) && r.client.base.model.Some? &&
              var m := r.client.base.model.value;
              && Last(r.sent).verb == Post
              && (FindKindById(m, ToText(id)).Some? ==>
                    Last(r.sent).uri == ToText(FindKindById(m, ToText(id)).value.location) + ActionSuffix(action))
              && (FindKindById(m, ToText(id)).None? ==>
                    Resolve(env, r.client, id).Success? &&
                    Last(r.sent).uri == ToText(Resolve(env, r.client, id).value) + ActionSuffix(action))
  {
    SendStatus(env, ConnectedTarget(env, c, id), Post, ActionSuffix(action), Some(action))
  }
}

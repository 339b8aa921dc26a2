/** HTTP requests and responses as the client sees them, the secure channel a
    request travels on, and the one rule the client applies to every exchange:
    a request succeeds when the status equals the expected code (200 unless
    stated otherwise).  The transport itself is an oracle passed in by the
    caller. */
module Http {
  import opened Wrappers
  import opened Errors
  import opened Text
  import opened Headers

  const SC_OK := 200
  const SC_CREATED := 201
  const SC_UNAUTHORIZED := 401

  datatype Method = Get | Head | Post | Delete

  /** Where trusted CA certificates come from. */
  datatype TrustSource =
    | SystemDefault
    | FromFile(path: string)
    /** The `.pem` files listed in a CA directory. */
    | FromDirectory(path: string, files: seq<string>)

  /** The client certificate presented on the TLS handshake. */
  datatype Identity =
    | Pkcs12(path: string, password: string)
    /** A PEM file: its certificate blocks in file order and its private key. */
    | Pem(path: string, chain: seq<string>, key: string, password: string)

  /** Credentials scoped to one host, any realm, one authentication scheme. */
  datatype Credentials = Credentials(host: string, scheme: string, username: Option<string>, password: Option<string>)

  /** What the connection's HTTP client was built with. */
  datatype Channel = Channel(trust: TrustSource, identity: Option<Identity>, credentials: Option<Credentials>)

  /** The credential part of a Keystone token request. */
  datatype KeystoneCredential =
    | VomsCredential
    | PasswordCredentials(username: Option<string>, password: Option<string>)

  datatype Payload =
    | NoPayload
    | TextPayload(text: string)
    /** `{"auth": {<credential>, "tenantName": <tenant>}}`. */
    | KeystonePayload(credential: KeystoneCredential, tenantName: Option<string>)

  datatype Request = Request(verb: Method, target: string, uri: string, headers: seq<Header>,
                             payload: Payload, channel: Channel)

  /** `body` is None when the response carries no entity. */
  datatype Response = Response(status: int, statusLine: string, headers: seq<Header>, body: Option<string>)

  /** A result together with the requests sent while computing it. */
  datatype Io<+T> = Io(result: Result<T>, sent: seq<Request>)

  /** The transport: None stands for an `IOException`. */
  type Transport = Request -> Option<Response>

  /** Response header lookup, which ignores the letter case of names. */
  function FirstHeader(hs: seq<Header>, name: string): (r: Option<string>)
    ensures r.None? <==> forall i :: 0 <= i < |hs| ==> !EqualsIgnoreCase(hs[i].name, name)
    ensures r.Some? ==> exists i :: 0 <= i < |hs| && EqualsIgnoreCase(hs[i].name, name) && hs[i].value == r.value &&
                                    forall j :: 0 <= j < i ==> !EqualsIgnoreCase(hs[j].name, name)
  {
    if hs == [] then None
    else if EqualsIgnoreCase(hs[0].name, name) then Some(hs[0].value)
    else
      var r := FirstHeader(hs[1..], name);
      assert forall i :: 0 < i < |hs| ==> hs[i] == hs[1..][i - 1];
      if r.Some? then
        var i :| 0 <= i < |hs[1..]| && EqualsIgnoreCase(hs[1..][i].name, name) && hs[1..][i].value == r.value &&
                 forall j :: 0 <= j < i ==> !EqualsIgnoreCase(hs[1..][j].name, name);
        assert EqualsIgnoreCase(hs[i + 1].name, name) && hs[i + 1].value == r.value;
        r
      else r
  }

  /** The failure a `CommunicationException(IOException)` stands for. */
  const TransportFailure := WrappedCommunication(IoError)

  /** `HTTPHelper.runRequest`: the response when its status is the expected
      one, otherwise a communication error carrying the status line and body. */
  function RunRequest(transport: Transport, req: Request, expected: int): (r: Io<Response>)
    ensures r.sent == [req]
    ensures r.result.Success? <==> transport(req).Some? && transport(req).value.status == expected
    ensures r.result.Success? ==> r.result.value == transport(req).value
    ensures transport(req).None? ==> r.result == Failure(TransportFailure)
    ensures transport(req).Some? && transport(req).value.status != expected ==>
              r.result == Failure(CommunicationError(transport(req).value.statusLine + "\n" + transport(req).value.body.GetOr("")))
  {
    match transport(req)
    case None => Io(Failure(TransportFailure), [req])
    case Some(resp) =>
      if resp.status != expected then
        Io(Failure(CommunicationError(resp.statusLine + "\n" + resp.body.GetOr(""))), [req])
      else Io(Success(resp), [req])
  }

  /** `HTTPHelper.runRequestForStatus` with its default: true exactly when the
      status is 200. */
  function RunRequestForStatus(transport: Transport, req: Request): (r: Io<bool>)
    ensures r.sent == [req]
    ensures transport(req).None? <==> r.result.Failure?
    ensures r.result.Failure? ==> r.result.error == TransportFailure
    ensures r.result.Success? ==> (r.result.value <==> transport(req).value.status == SC_OK)
  {
    match transport(req)
    case None => Io(Failure(TransportFailure), [req])
    case Some(resp) => Io(Success(resp.status == SC_OK), [req])
  }

  /** A `Content-Type` value without its parameters: everything before the
      first `;`. */
  function StripParameters(contentType: string): (r: string)
    ensures ';' !in r
    ensures StartsWith(contentType, r)
    ensures |r| < |contentType| <==> ';' in contentType
    ensures |r| < |contentType| ==> contentType[|r|] == ';'
  {
    var i := IndexOfChar(contentType, ';');
    if i == -1 then contentType else contentType[..i]
  }

  /** A parsed response: media type without parameters, headers and body. */
  datatype Received = Received(mediaType: string, headers: seq<Header>, body: string)

  /** What `runAndParseRequest` reads from a successful response: a missing
      `Content-Type` and a missing entity both escape as unchecked exceptions. */
  function ReadResponse(resp: Response): (r: Result<Received>)
    ensures r.Success? <==> FirstHeader(resp.headers, CONTENT_TYPE).Some? && resp.body.Some?
    ensures r.Success? ==> r.value == Received(StripParameters(FirstHeader(resp.headers, CONTENT_TYPE).value),
                                               resp.headers, resp.body.value)
    ensures FirstHeader(resp.headers, CONTENT_TYPE).None? ==> r == Failure(NullPointer(""))
  {
    match FirstHeader(resp.headers, CONTENT_TYPE)
    case None => Failure(NullPointer(""))
    case Some(ct) =>
      match resp.body
      case None => Failure(IllegalArgument("HTTP entity may not be null"))
      case Some(b) => Success(Received(StripParameters(ct), resp.headers, b))
  }
}

/** `HTTPAuthentication.authenticate`: build the channel the strategy
    describes (trusted CAs, client certificate, scoped credentials), probe the
    model path with HEAD, and decide on the answer: 200 is success, 401 hands
    the response to the Keystone fallback, anything else fails. */
module HttpAuthentication {
  import opened Wrappers
  import opened Errors
  import opened Headers
  import opened Http
  import opened Strategies
  import opened Certificates
  import opened Platform
  import opened Client
  import KeystoneAuth

  /** A negotiated connection: the channel requests travel on and the
      connection headers, which a Keystone exchange extends with a token. */
  datatype Established = Established(channel: Channel, headers: seq<Header>)

  /** A password strategy without a username: its credentials cannot be
      built, since Apache's `UsernamePasswordCredentials` refuses a null
      username. */
  predicate NullUsername(s: Strategy) {
    UsesPassword(s.variant) && s.variant.username.None?
  }

  /** The credentials a password strategy's own `authenticate` registers for
      `target` before the channel is built: Apache's
      `UsernamePasswordCredentials` refuses a null username (a null password
      is accepted).  Other strategies register none. */
  function PasswordCredentials(s: Strategy, target: string): (r: Result<Option<Credentials>>)
    ensures !UsesPassword(s.variant) ==> r == Success(None)
    ensures r.Failure? <==> NullUsername(s)
    ensures r.Failure? ==> r.error == IllegalArgument("Username may not be null")
    ensures r.Success? && UsesPassword(s.variant) ==>
              Username(s).Some? && r.value == Some(Credentials(target, AuthScheme(s.variant), Username(s), Password(s)))
  {
    if !UsesPassword(s.variant) then Success(None)
    else
      match s.variant.username
      case None => Failure(IllegalArgument("Username may not be null"))
      case Some(name) => Success(Some(Credentials(target, AuthScheme(s.variant), Some(name), s.variant.password)))
  }

  /** The channel the strategy configures for `target`: credentials for the
      target host with the strategy's scheme for the password strategies
      (built first, by the strategy's own `authenticate`, so a null username
      fails before anything else), trust material from `loadCAs`, and the
      client certificate of the certificate strategies. */
  function BuildChannel(p: Platform, s: Strategy, target: string): (r: Result<Channel>)
    requires !s.variant.Keystone?
    ensures NullUsername(s) ==> r == Failure(IllegalArgument("Username may not be null"))
    ensures r.Success? <==> !NullUsername(s) && LoadCAs(s.caFile, s.caPath, p.isDirectory, p.listDirectory).Success? &&
                            (UsesCertificate(s.variant) ==>
                               LoadIdentity(p.readFile, s.variant.certificate, s.variant.certificatePassword).Success?)
    ensures r.Failure? && !NullUsername(s) && LoadCAs(s.caFile, s.caPath, p.isDirectory, p.listDirectory).Failure? ==>
              r.error == LoadCAs(s.caFile, s.caPath, p.isDirectory, p.listDirectory).error
    ensures r.Success? ==> r.value.trust == LoadCAs(s.caFile, s.caPath, p.isDirectory, p.listDirectory).value
    ensures r.Success? ==> (r.value.identity.Some? <==> UsesCertificate(s.variant))
    ensures r.Success? && UsesCertificate(s.variant) ==>
              r.value.identity == Some(LoadIdentity(p.readFile, s.variant.certificate, s.variant.certificatePassword).value)
    ensures r.Failure? && !NullUsername(s) && LoadCAs(s.caFile, s.caPath, p.isDirectory, p.listDirectory).Success? ==>
              UsesCertificate(s.variant) &&
              r.error == LoadIdentity(p.readFile, s.variant.certificate, s.variant.certificatePassword).error
    ensures r.Success? ==> (r.value.credentials.Some? <==> UsesPassword(s.variant))
    ensures r.Success? && UsesPassword(s.variant) ==>
              r.value.credentials.value == Credentials(target, AuthScheme(s.variant), Username(s), Password(s)) &&
              Username(s).Some?
  {
    var credentials :- PasswordCredentials(s, target);
    var trust :- LoadCAs(s.caFile, s.caPath, p.isDirectory, p.listDirectory);
    if UsesCertificate(s.variant) then
      var identity :- LoadIdentity(p.readFile, s.variant.certificate, s.variant.certificatePassword);
      Success(Channel(trust, Some(identity), None))
    else
      Success(Channel(trust, None, credentials))
  }

  /** The probe: HEAD on the model path with the connection's headers. */
  function Probe(target: string, headers: seq<Header>, channel: Channel): Request {
    Request(Head, target, MODEL_URI, headers, NoPayload, channel)
  }

  /** `authenticate()` of a strategy on a connection to `target` whose headers
      are `headers`.  Keystone, called on its own, has no response to react to;
      the "unknown fallback method" branch cannot be taken, as every fallback
      is Keystone. */
  function Authenticate(p: Platform, s: Strategy, target: string, headers: seq<Header>): (r: Io<Established>)
    ensures s.variant.Keystone? ==> r == Io(Failure(AuthenticationError("no response to react to")), [])
    ensures !s.variant.Keystone? && NullUsername(s) ==> r == Io(Failure(IllegalArgument("Username may not be null")), [])
    ensures !s.variant.Keystone? && BuildChannel(p, s, target).Failure? ==>
              r == Io(Failure(BuildChannel(p, s, target).error), [])
    ensures r.sent != [] ==> !s.variant.Keystone? && BuildChannel(p, s, target).Success? &&
                              r.sent[0] == Probe(target, headers, BuildChannel(p, s, target).value)
    ensures r.result.Success? ==> r.sent != [] && r.result.value.channel == r.sent[0].channel
    ensures r.result.Success? && |r.sent| == 1 ==> r.result.value.headers == headers
    ensures r.result.Success? && |r.sent| > 1 ==>
              p.transport(r.sent[0]).Some? && p.transport(r.sent[0]).value.status == SC_UNAUTHORIZED &&
              KeystoneAuth.Authenticate(p, s, r.sent[0].channel, p.transport(r.sent[0]), headers).result ==
                Success(r.result.value.headers)
  {
    if s.variant.Keystone? then Io(Failure(AuthenticationError("no response to react to")), [])
    else
      match BuildChannel(p, s, target)
      case Failure(e) => Io(Failure(e), [])
      case Success(channel) =>
        var probe := Probe(target, headers, channel);
        match p.transport(probe)
        case None => Io(Failure(TransportFailure), [probe])
        case Some(resp) =>
          if resp.status == SC_OK then Io(Success(Established(channel, headers)), [probe])
          else if resp.status == SC_UNAUTHORIZED && Fallback(s).Some? then
            assert Fallback(s).value.variant.original == s;
            var keystone := KeystoneAuth.Authenticate(p, Fallback(s).value.variant.original, channel, Some(resp), headers);
            match keystone.result
            case Failure(e) => Io(Failure(e), [probe] + keystone.sent)
            case Success(withToken) => Io(Success(Established(channel, withToken)), [probe] + keystone.sent)
          else Io(Failure(AuthenticationError(resp.statusLine)), [probe])
  }

  /** The probe's answer decides: 200 succeeds without a fallback, a 401 goes
      to Keystone when the strategy has a fallback, and every other answer
      fails with the status line. */
  lemma ProbeDecision(p: Platform, s: Strategy, target: string, headers: seq<Header>)
    requires !s.variant.Keystone? && BuildChannel(p, s, target).Success?
    ensures var probe := Probe(target, headers, BuildChannel(p, s, target).value);
            var r := Authenticate(p, s, target, headers);
            && (p.transport(probe).None? ==> r == Io(Failure(TransportFailure), [probe]))
            && (p.transport(probe).Some? && p.transport(probe).value.status == SC_OK ==>
                  r == Io(Success(Established(probe.channel, headers)), [probe]))
            && (p.transport(probe).Some? && p.transport(probe).value.status != SC_OK &&
                (p.transport(probe).value.status != SC_UNAUTHORIZED || s.variant.NoAuth?) ==>
                  r == Io(Failure(AuthenticationError(p.transport(probe).value.statusLine)), [probe]))
            && (p.transport(probe).Some? && p.transport(probe).value.status == SC_UNAUTHORIZED && !s.variant.NoAuth? ==>
                  r.sent[..1] == [probe] &&
                  r.result.Success? == KeystoneAuth.Authenticate(p, s, probe.channel, p.transport(probe), headers).result.Success?)
  {
    var probe := Probe(target, headers, BuildChannel(p, s, target).value);
    var r := Authenticate(p, s, target, headers);
    if p.transport(probe).Some? && p.transport(probe).value.status == SC_UNAUTHORIZED && !s.variant.NoAuth? {
      assert Fallback(s).value.variant.original == s;
      assert r.sent[..1] == [probe];
    }
  }

  /** An X509 strategy that receives a 401 cannot be rescued: its Keystone
      fallback has no credential for it and fails before sending anything. */
  lemma X509FallbackFails(p: Platform, s: Strategy, target: string, headers: seq<Header>)
    requires s.variant.X509? && BuildChannel(p, s, target).Success?
    requires var probe := Probe(target, headers, BuildChannel(p, s, target).value);
             p.transport(probe).Some? && p.transport(probe).value.status == SC_UNAUTHORIZED
    ensures Authenticate(p, s, target, headers).result.Failure?
    ensures |Authenticate(p, s, target, headers).sent| == 1
  {
    assert Fallback(s).value.variant.original == s;
    assert KeystoneAuth.RequestBody(s, None).Failure?;
  }
}

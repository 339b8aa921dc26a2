/** The Keystone fallback: after a 401, read the Keystone URI from the
    `Www-Authenticate` challenge, obtain an unscoped token with the original
    strategy's credentials, try the listed tenants in order for a scoped
    token, and install the token as `X-Auth-Token` on the connection. */
module KeystoneAuth {
  import opened Wrappers
  import opened Errors
  import opened Text
  import opened Headers
  import opened Http
  import opened Strategies
  import opened Platform

  const HEADER_AUTH := "Www-Authenticate"
  const PATH_DEFAULT := "/v2.0"
  const JSON_TYPE := "application/json"

  /** The two challenge openings the pattern `^(?:Keystone|snf-auth) uri='`
      accepts; both are fourteen characters long. */
  const KEYSTONE_OPENING := "Keystone uri='"
  const SNF_OPENING := "snf-auth uri='"

  // ---------------------------------------------------------------------
  // The challenge
  // ---------------------------------------------------------------------

  /** `checkResponse`, returning the challenge: the value of the first
      `Www-Authenticate` header, whose name is matched ignoring case. */
  function CheckResponse(response: Option<Response>): (r: Result<string>)
    ensures response.None? ==> r == Failure(AuthenticationError("no response to react to"))
    ensures response.Some? ==> (r.Success? <==> exists i :: 0 <= i < |response.value.headers| &&
                                                 EqualsIgnoreCase(response.value.headers[i].name, HEADER_AUTH))
    ensures response.Some? && r.Failure? ==> r.error == AuthenticationError("missing 'Www-Authenticate' header")
    ensures r.Success? ==> r.value == FirstHeader(response.value.headers, HEADER_AUTH).value
  {
    match response
    case None => Failure(AuthenticationError("no response to react to"))
    case Some(resp) =>
      match FirstHeader(resp.headers, HEADER_AUTH)
      case None => Failure(AuthenticationError("missing 'Www-Authenticate' header"))
      case Some(v) => Success(v)
  }

  /** The characters Java's regular expressions treat as line terminators;
      `.` matches none of them. */
  predicate IsLineTerminator(c: char) {
    c == '\n' || c == '\r' || c == '\U{85}' || c == '\U{2028}' || c == '\U{2029}'
  }

  predicate Unbroken(s: string) {
    forall i :: 0 <= i < |s| ==> !IsLineTerminator(s[i])
  }

  /** Where `$` can match at the end of the challenge: before one final line
      terminator (`\r\n` counting as one), or at the very end. */
  function StripFinalTerminator(v: string): (r: string)
    ensures StartsWith(v, r) && |v| - 2 <= |r| <= |v|
    ensures |r| < |v| ==> IsLineTerminator(v[|v| - 1])
    ensures |r| == |v| - 2 ==> v[|v| - 2..] == "\r\n"
    ensures |v| >= 2 && v[|v| - 2..] == "\r\n" ==> |r| == |v| - 2
    ensures v != [] && IsLineTerminator(v[|v| - 1]) ==> |r| < |v|
  {
    if EndsWith(v, "\r\n") then v[..|v| - 2]
    else if v != [] && IsLineTerminator(v[|v| - 1]) then v[..|v| - 1]
    else v
  }

  /** `b` is a well-formed challenge carrying `uri`. */
  predicate ChallengeOf(b: string, uri: string) {
    uri != [] && Unbroken(uri) && (b == KEYSTONE_OPENING + uri + "'" || b == SNF_OPENING + uri + "'")
  }

  /** Matches `^(?:Keystone|snf-auth) uri='(.+)'$` and returns the group. */
  function ParseChallenge(v: string): (r: Result<string>)
    ensures r.Success? ==> ChallengeOf(StripFinalTerminator(v), r.value)
    ensures r.Failure? ==> r.error == AuthenticationError("incorrect Www-Authenticate content")
  {
    var b := StripFinalTerminator(v);
    if |b| >= |KEYSTONE_OPENING| + 2 && (StartsWith(b, KEYSTONE_OPENING) || StartsWith(b, SNF_OPENING)) &&
       b[|b| - 1] == '\'' && Unbroken(b[|KEYSTONE_OPENING|..|b| - 1])
    then
      ChallengeSplit(b);
      Success(b[|KEYSTONE_OPENING|..|b| - 1])
    else
      Failure(AuthenticationError("incorrect Www-Authenticate content"))
  }

  /** Text the pattern accepts is an opening, the URI and the closing quote. */
  lemma ChallengeSplit(b: string)
    requires |b| >= |KEYSTONE_OPENING| + 2 && (StartsWith(b, KEYSTONE_OPENING) || StartsWith(b, SNF_OPENING))
    requires b[|b| - 1] == '\'' && Unbroken(b[|KEYSTONE_OPENING|..|b| - 1])
    ensures ChallengeOf(b, b[|KEYSTONE_OPENING|..|b| - 1])
  {
    var uri := b[|KEYSTONE_OPENING|..|b| - 1];
    assert b == b[..|KEYSTONE_OPENING|] + uri + "'";
  }

  /** Every well-formed challenge is accepted, with its own URI: the pattern
      rejects nothing it should match. */
  lemma ParseChallengeComplete(v: string, uri: string)
    requires ChallengeOf(StripFinalTerminator(v), uri)
    ensures ParseChallenge(v) == Success(uri)
  {
    var b := StripFinalTerminator(v);
    var opening := if b == KEYSTONE_OPENING + uri + "'" then KEYSTONE_OPENING else SNF_OPENING;
    assert b == opening + uri + "'";
    assert b[..|KEYSTONE_OPENING|] == opening;
    assert b[|KEYSTONE_OPENING|..|b| - 1] == uri;
  }

  /** A challenge written by a Keystone server, with or without a final line
      break, yields the URI it carries. */
  lemma ChallengeRoundTrip(opening: string, uri: string, ending: string)
    requires opening == KEYSTONE_OPENING || opening == SNF_OPENING
    requires uri != [] && Unbroken(uri)
    requires ending == "" || ending == "\r\n" || (|ending| == 1 && IsLineTerminator(ending[0]))
    ensures ParseChallenge(opening + uri + "'" + ending) == Success(uri)
  {
    var b := opening + uri + "'";
    var v := b + ending;
    assert StripFinalTerminator(v) == b by {
      if ending == "\r\n" {
        assert v[|v| - 2..] == "\r\n";
        assert v[..|v| - 2] == b;
      } else if ending != "" {
        assert v[|v| - 2] == '\'';
        assert v[..|v| - 1] == b;
      } else {
        assert v == b;
        assert v[|v| - 1] == '\'';
      }
    }
    ParseChallengeComplete(v, uri);
  }

  // ---------------------------------------------------------------------
  // The Keystone path and requests
  // ---------------------------------------------------------------------

  /** The Keystone API path: a null path is empty, one trailing `/` goes, and
      `/v2.0` is added unless the path already ends with it. */
  function NormalisePath(path: Option<string>): (r: string)
    ensures EndsWith(r, PATH_DEFAULT)
  {
    var p := DropTrailingSlash(path.GetOr(""));
    if EndsWith(p, PATH_DEFAULT) then p
    else
      assert (p + PATH_DEFAULT)[|p + PATH_DEFAULT| - 5..] == PATH_DEFAULT;
      p + PATH_DEFAULT
  }

  /** The path without one trailing `/`. */
  function DropTrailingSlash(s: string): (r: string)
    ensures EndsWith(s, "/") ==> r + "/" == s
    ensures !EndsWith(s, "/") ==> r == s
  {
    if EndsWith(s, "/") then
      assert s == s[..|s| - 1] + "/";
      s[..|s| - 1]
    else s
  }

  /** The three shapes of the Keystone path: already ending with `/v2.0`, with
      `/v2.0/`, or neither, when `/v2.0` is appended after one trailing `/`
      is dropped. */
  lemma NormalisePathCases(path: Option<string>)
    ensures EndsWith(path.GetOr(""), PATH_DEFAULT) ==> NormalisePath(path) == path.GetOr("")
    ensures EndsWith(path.GetOr(""), PATH_DEFAULT + "/") ==> NormalisePath(path) + "/" == path.GetOr("")
    ensures !EndsWith(path.GetOr(""), PATH_DEFAULT) && !EndsWith(path.GetOr(""), PATH_DEFAULT + "/") ==>
              NormalisePath(path) == DropTrailingSlash(path.GetOr("")) + PATH_DEFAULT
  {
    var s := path.GetOr("");
    var p := DropTrailingSlash(s);
    if EndsWith(s, "/") {
      assert !EndsWith(s, PATH_DEFAULT) by { assert s[|s| - 1] == '/'; }
      SlashedSuffix(p);
    } else {
      assert !EndsWith(s, PATH_DEFAULT + "/") by {
        if |s| >= 6 { assert s[|s| - 1..] == s[|s| - 6..][5..]; }
      }
    }
  }

  /** A trailing `/` on both sides does not change a suffix test. */
  lemma SlashedSuffix(p: string)
    ensures EndsWith(p + "/", PATH_DEFAULT + "/") <==> EndsWith(p, PATH_DEFAULT)
  {
    var s := p + "/";
    if |p| >= 5 {
      assert s[|s| - 6..] == p[|p| - 5..] + "/";
      assert p[|p| - 5..] == s[|s| - 6..][..5];
      assert (PATH_DEFAULT + "/")[..5] == PATH_DEFAULT;
    }
  }

  /** Normalising a normalised path changes nothing. */
  lemma NormalisePathIdempotent(path: Option<string>)
    ensures NormalisePath(Some(NormalisePath(path))) == NormalisePath(path)
  {
    var r := NormalisePath(path);
    NormalisePathCases(Some(r));
  }

  /** `getHeaders`: JSON in both directions, then the token when one is held. */
  function KeystoneHeaders(token: Option<string>): (r: seq<Header>)
    ensures |r| == if token.Some? then 3 else 2
    ensures r[0] == Header(CONTENT_TYPE, JSON_TYPE) && r[1] == Header(ACCEPT, JSON_TYPE)
    ensures token.Some? ==> r[2] == Header(X_AUTH_TOKEN, token.value)
  {
    var json := [Header(CONTENT_TYPE, JSON_TYPE), Header(ACCEPT, JSON_TYPE)];
    match token
    case None => json
    case Some(t) => json + [Header(X_AUTH_TOKEN, t)]
  }

  /** The Keystone headers name each header once, and carry exactly the held
      token. */
  lemma KeystoneHeadersCarryToken(token: Option<string>)
    ensures UniqueNames(KeystoneHeaders(token))
    ensures ValueOf(KeystoneHeaders(token), X_AUTH_TOKEN) == token
    ensures ValueOf(KeystoneHeaders(token), CONTENT_TYPE) == Some(JSON_TYPE)
  {
    var r := KeystoneHeaders(token);
    assert r[1..][0] == r[1];
    assert CONTENT_TYPE[0] != X_AUTH_TOKEN[0] && ACCEPT[0] != X_AUTH_TOKEN[0];
    assert ValueOf(r, X_AUTH_TOKEN) == ValueOf(r[1..], X_AUTH_TOKEN) == ValueOf(r[1..][1..], X_AUTH_TOKEN);
    if token.Some? {
      assert r[1..][1..] == [Header(X_AUTH_TOKEN, token.value)];
    } else {
      assert r[1..][1..] == [];
    }
  }

  /** `getRequestBody`: the credential the original strategy offers Keystone,
      chosen by its identifier, and the tenant when one is given. */
  function RequestBody(original: Strategy, tenant: Option<string>): (r: Result<Payload>)
    ensures r.Success? <==> Identifier(original.variant) in {VOMS_ID, BASIC_ID, DIGEST_ID}
    ensures r.Failure? ==> r.error == AuthenticationError("unknown original authentication method")
    ensures r.Success? ==> r.value.KeystonePayload? && r.value.tenantName == tenant
    ensures Identifier(original.variant) == VOMS_ID ==> r == Success(KeystonePayload(VomsCredential, tenant))
    ensures UsesPassword(original.variant) ==>
              r == Success(KeystonePayload(PasswordCredentials(Username(original), Password(original)), tenant))
  {
    match original.variant
    case Voms(_, _) => Success(KeystonePayload(VomsCredential, tenant))
    case Basic(u, p) => Success(KeystonePayload(PasswordCredentials(u, p), tenant))
    case Digest(u, p) => Success(KeystonePayload(PasswordCredentials(u, p), tenant))
    case _ => Failure(AuthenticationError("unknown original authentication method"))
  }

  /** POST `<path>/tokens` to the Keystone server. */
  function TokenRequest(origin: string, path: string, channel: Channel, token: Option<string>, payload: Payload): Request {
    Request(Post, origin, path + "/tokens", KeystoneHeaders(token), payload, channel)
  }

  /** GET `<path>/tenants` from the Keystone server. */
  function TenantsRequest(origin: string, path: string, channel: Channel, token: Option<string>): Request {
    Request(Get, origin, path + "/tenants", KeystoneHeaders(token), NoPayload, channel)
  }

  /** The Keystone server answered `req` with 200 and a JSON body. */
  predicate Answered(p: Platform, req: Request) {
    p.transport(req).Some? && p.transport(req).value.status == SC_OK &&
    p.transport(req).value.body.Some? && p.decodeJson(p.transport(req).value.body.value).Read?
  }

  /** The JSON document of that answer. */
  function AnswerOf(p: Platform, req: Request): JsonDoc
    requires Answered(p, req)
  {
    p.decodeJson(p.transport(req).value.body.value).doc
  }

  /** The Keystone server answered `req` with 200 and a body that is JSON of
      the wrong shape for the reader. */
  predicate AnsweredWrongShape(p: Platform, req: Request) {
    p.transport(req).Some? && p.transport(req).value.status == SC_OK &&
    p.transport(req).value.body.Some? && p.decodeJson(p.transport(req).value.body.value).WrongShape?
  }

  /** A request of the Keystone exchange: sent on the connection's channel,
      with the JSON headers first. */
  predicate ToKeystone(q: Request, channel: Channel) {
    q.channel == channel && |q.headers| >= 2 && q.headers[0] == Header(CONTENT_TYPE, JSON_TYPE) &&
    q.headers[1] == Header(ACCEPT, JSON_TYPE)
  }

  /** Runs a Keystone request expecting 200 and reads its body as JSON. */
  function FetchJson(p: Platform, req: Request): (r: Io<JsonDoc>)
    ensures r.sent == [req]
    ensures r.result.Success? <==> Answered(p, req)
    ensures r.result.Success? ==> r.result.value == AnswerOf(p, req)
    ensures p.transport(req).None? ==> r.result == Failure(TransportFailure)
    ensures p.transport(req).Some? && p.transport(req).value.status == SC_OK && p.transport(req).value.body.None? ==>
              r.result == Failure(IllegalArgument("HTTP entity may not be null"))
    ensures p.transport(req).Some? && p.transport(req).value.status == SC_OK && p.transport(req).value.body.Some? ==>
              match p.decodeJson(p.transport(req).value.body.value)
              case Read(doc) => r.result == Success(doc)
              case Malformed => r.result == Failure(TransportFailure)
              case WrongShape => r.result == Failure(IllegalState)
  {
    var run := RunRequest(p.transport, req, SC_OK);
    match run.result
    case Failure(e) => Io(Failure(e), run.sent)
    case Success(resp) =>
      match resp.body
      case None => Io(Failure(IllegalArgument("HTTP entity may not be null")), run.sent)
      case Some(b) =>
        match p.decodeJson(b)
        case Malformed => Io(Failure(TransportFailure), run.sent)
        case WrongShape => Io(Failure(IllegalState), run.sent)
        case Read(doc) => Io(Success(doc), run.sent)
  }

  /** `authenticateAgainstKeystone` followed by `parseId`: the token id of the
      response, which may be absent.  A body the original strategy cannot
      write sends nothing. */
  function RequestToken(p: Platform, origin: string, path: string, channel: Channel, original: Strategy,
                        token: Option<string>, tenant: Option<string>): (r: Io<Option<string>>)
    ensures RequestBody(original, tenant).Failure? ==> r == Io(Failure(RequestBody(original, tenant).error), [])
    ensures RequestBody(original, tenant).Success? ==>
              r.sent == [TokenRequest(origin, path, channel, token, RequestBody(original, tenant).value)]
    ensures r.result.Success? <==> RequestBody(original, tenant).Success? && Answered(p, r.sent[0])
    ensures r.result.Success? ==> r.result.value == AnswerOf(p, r.sent[0]).tokenId
  {
    match RequestBody(original, tenant)
    case Failure(e) => Io(Failure(e), [])
    case Success(payload) =>
      var fetched := FetchJson(p, TokenRequest(origin, path, channel, token, payload));
      match fetched.result
      case Failure(e) => Io(Failure(e), fetched.sent)
      case Success(doc) => Io(Success(doc.tokenId), fetched.sent)
  }

  // ---------------------------------------------------------------------
  // Tenants
  // ---------------------------------------------------------------------

  /** An attempt the tenant loop ignores: one that fails with a
      `CommunicationException`. */
  predicate Skipped(attempt: string -> Io<Option<string>>, t: string) {
    attempt(t).result.Failure? && attempt(t).result.error.IsCommunication()
  }

  /** The attempt at index `i` settles the search: every earlier one was
      skipped and this one is not. */
  predicate Decides(attempt: string -> Io<Option<string>>, ts: seq<string>, i: int) {
    0 <= i < |ts| && !Skipped(attempt, ts[i]) && forall j :: 0 <= j < i ==> Skipped(attempt, ts[j])
  }

  /** `tryTenants` over the tenant names: attempts in listed order until one
      is not skipped. */
  function TryInOrder(attempt: string -> Io<Option<string>>, ts: seq<string>): (r: Io<Option<string>>)
    ensures r.result.Success? ==> exists t :: t in ts && attempt(t).result == r.result
    ensures forall q :: q in r.sent ==> exists t :: t in ts && q in attempt(t).sent
  {
    if ts == [] then Io(Failure(AuthenticationError("no suitable tenant found")), [])
    else
      var first := attempt(ts[0]);
      if !Skipped(attempt, ts[0]) then first
      else
        var rest := TryInOrder(attempt, ts[1..]);
        assert forall t :: t in ts[1..] ==> t in ts;
        Io(rest.result, first.sent + rest.sent)
  }

  /** The search ends with the first attempt that is not skipped, or with "no
      suitable tenant found" when every attempt is. */
  lemma {:induction false} TryInOrderSpec(attempt: string -> Io<Option<string>>, ts: seq<string>)
    ensures forall i :: Decides(attempt, ts, i) ==> TryInOrder(attempt, ts).result == attempt(ts[i]).result
    ensures (forall i :: 0 <= i < |ts| ==> Skipped(attempt, ts[i])) ==>
              TryInOrder(attempt, ts).result == Failure(AuthenticationError("no suitable tenant found"))
  {
    if ts != [] {
      TryInOrderSpec(attempt, ts[1..]);
      forall i | Decides(attempt, ts, i) && i > 0
        ensures Decides(attempt, ts[1..], i - 1)
      {
        forall j | 0 <= j < i - 1
          ensures Skipped(attempt, ts[1..][j])
        {
          assert ts[1..][j] == ts[j + 1];
        }
      }
      if forall i :: 0 <= i < |ts| ==> Skipped(attempt, ts[i]) {
        forall i | 0 <= i < |ts| - 1
          ensures Skipped(attempt, ts[1..][i])
        {
          assert ts[1..][i] == ts[i + 1];
        }
      }
    }
  }

  /** An attempt's failure stops the search at once unless it is skipped, and
      a success stops it. */
  lemma TryInOrderStopsAtFirst(attempt: string -> Io<Option<string>>, ts: seq<string>)
    requires ts != [] && !Skipped(attempt, ts[0])
    ensures TryInOrder(attempt, ts) == attempt(ts[0])
  {
  }

  // ---------------------------------------------------------------------
  // The fallback
  // ---------------------------------------------------------------------

  /** `KeystoneAuthentication.authenticate` for the 401 `response` the
      original strategy received on `channel`: the connection headers with
      `X-Auth-Token` set to the final token.  A null token is installed as the
      empty value. */
  function Authenticate(p: Platform, original: Strategy, channel: Channel, response: Option<Response>,
                        headers: seq<Header>): (r: Io<seq<Header>>)
    ensures response.None? ==> r == Io(Failure(AuthenticationError("no response to react to")), [])
    ensures r.result.Success? ==> r.sent != [] && r.sent[0].verb == Post
    ensures forall q :: q in r.sent ==> ToKeystone(q, channel)
    ensures RequestBody(original, None).Failure? ==> r.result.Failure? && r.sent == []
    ensures r.result.Success? ==>
              var challenge := CheckResponse(response);
              challenge.Success? && ParseChallenge(challenge.value).Success? &&
              p.parseUri(ParseChallenge(challenge.value).value).Some? &&
              var keystone := p.parseUri(ParseChallenge(challenge.value).value).value;
              Exchanged(p, keystone.origin, NormalisePath(keystone.path), channel, original, headers, r.result.value)
  {
    var challenge := CheckResponse(response);
    if challenge.Failure? then Io(Failure(challenge.error), [])
    else
      var uri := ParseChallenge(challenge.value);
      if uri.Failure? then Io(Failure(uri.error), [])
      else
        match p.parseUri(uri.value)
        case None => Io(Failure(IllegalArgument("")), [])
        case Some(keystone) => Exchange(p, keystone.origin, NormalisePath(keystone.path), channel, original, headers)
  }

  /** The exchange with the Keystone endpoint at `origin` and `path`: the
      unscoped token, then the tenant listing and the scoped token. */
  function Exchange(p: Platform, origin: string, path: string, channel: Channel, original: Strategy,
                    headers: seq<Header>): (r: Io<seq<Header>>)
    ensures r.sent != [] ==> r.sent[0].verb == Post
    ensures r.result.Success? ==> r.sent != []
    ensures forall q :: q in r.sent ==> ToKeystone(q, channel)
    ensures RequestBody(original, None).Failure? ==> r.result.Failure? && r.sent == []
    ensures r.result.Success? ==> Exchanged(p, origin, path, channel, original, headers, r.result.value)
  {
    var first := RequestToken(p, origin, path, channel, original, None, None);
    if first.result.Failure? then Io(Failure(first.result.error), first.sent)
    else
      var scoped := Scope(p, origin, path, channel, original, first.result.value, headers);
      Io(scoped.result, first.sent + scoped.sent)
  }

  /** `after` is `headers` with the unscoped token's exchange completed: the
      tenant listing made with the unscoped token was answered, and the token
      installed is the unscoped one when the listing has no `tenants` key,
      otherwise the token of the first tenant whose scoped request succeeds. */
  predicate TokenInstalled(p: Platform, origin: string, path: string, channel: Channel, original: Strategy,
                           unscoped: Option<string>, headers: seq<Header>, after: seq<Header>) {
    var listing := TenantsRequest(origin, path, channel, unscoped);
    Answered(p, listing) &&
    var tenants := AnswerOf(p, listing).tenants;
    var token := if tenants.None? then Success(unscoped)
                 else TryInOrder(TenantAttempt(p, origin, path, channel, original, unscoped), tenants.value).result;
    token.Success? && after == AddHeader(headers, Header(X_AUTH_TOKEN, token.value.GetOr("")))
  }

  /** `after` is `headers` with the token the whole exchange with the Keystone
      endpoint at `origin` and `path` yields: the unscoped token was granted
      and its exchange completed. */
  predicate Exchanged(p: Platform, origin: string, path: string, channel: Channel, original: Strategy,
                      headers: seq<Header>, after: seq<Header>) {
    var first := RequestToken(p, origin, path, channel, original, None, None);
    first.result.Success? && TokenInstalled(p, origin, path, channel, original, first.result.value, headers, after)
  }

  /** After the unscoped token: list the tenants with it and install the
      token the listing leads to. */
  function Scope(p: Platform, origin: string, path: string, channel: Channel, original: Strategy,
                 unscoped: Option<string>, headers: seq<Header>): (r: Io<seq<Header>>)
    ensures forall q :: q in r.sent ==> ToKeystone(q, channel)
    ensures r.result.Success? ==> TokenInstalled(p, origin, path, channel, original, unscoped, headers, r.result.value)
  {
    var listing := FetchJson(p, TenantsRequest(origin, path, channel, unscoped));
    if listing.result.Failure? then Io(Failure(listing.result.error), listing.sent)
    else
      var scoped := ScopedToken(p, origin, path, channel, original, unscoped, listing.result.value.tenants);
      var sent := listing.sent + scoped.sent;
      if scoped.result.Failure? then Io(Failure(scoped.result.error), sent)
      else Io(Success(AddHeader(headers, Header(X_AUTH_TOKEN, scoped.result.value.GetOr("")))), sent)
  }

  /** The token kept after the tenant listing: the unscoped one when the
      listing has no `tenants` key, otherwise the first tenant's scoped token. */
  function ScopedToken(p: Platform, origin: string, path: string, channel: Channel, original: Strategy,
                       unscoped: Option<string>, tenants: Option<seq<string>>): (r: Io<Option<string>>)
    ensures tenants.None? ==> r == Io(Success(unscoped), [])
    ensures tenants == Some([]) ==> r == Io(Failure(AuthenticationError("no suitable tenant found")), [])
    ensures tenants.Some? ==> r == TryInOrder(TenantAttempt(p, origin, path, channel, original, unscoped), tenants.value)
    ensures forall q :: q in r.sent ==> ToKeystone(q, channel) && q.verb == Post && q.payload.KeystonePayload? &&
                                        q.payload.tenantName.Some?
  {
    match tenants
    case None => Io(Success(unscoped), [])
    case Some(names) =>
      TenantRequestsToKeystone(p, origin, path, channel, original, unscoped, names);
      TryInOrder(TenantAttempt(p, origin, path, channel, original, unscoped), names)
  }

  /** A scoped answer of the wrong shape is not a communication failure, so
      the tenant loop does not skip it: the search ends at the first tenant
      with the reader's error, and no other tenant is tried. */
  lemma WrongShapeStopsTenantSearch(p: Platform, origin: string, path: string, channel: Channel, original: Strategy,
                                    unscoped: Option<string>, names: seq<string>)
    requires names != [] && RequestBody(original, Some(names[0])).Success?
    requires AnsweredWrongShape(p, TokenRequest(origin, path, channel, unscoped, RequestBody(original, Some(names[0])).value))
    ensures ScopedToken(p, origin, path, channel, original, unscoped, Some(names)) ==
            Io(Failure(IllegalState), [TokenRequest(origin, path, channel, unscoped, RequestBody(original, Some(names[0])).value)])
  {
    var attempt := TenantAttempt(p, origin, path, channel, original, unscoped);
    var q := TokenRequest(origin, path, channel, unscoped, RequestBody(original, Some(names[0])).value);
    assert FetchJson(p, q).result == Failure(IllegalState);
    assert attempt(names[0]) == Io(Failure(IllegalState), [q]);
    TryInOrderStopsAtFirst(attempt, names);
  }

  /** An unscoped-token answer of the wrong shape ends the exchange with the
      reader's error after that one request. */
  lemma WrongShapeTokenAborts(p: Platform, origin: string, path: string, channel: Channel, original: Strategy,
                              headers: seq<Header>)
    requires RequestBody(original, None).Success?
    requires AnsweredWrongShape(p, TokenRequest(origin, path, channel, None, RequestBody(original, None).value))
    ensures Exchange(p, origin, path, channel, original, headers) ==
            Io(Failure(IllegalState), [TokenRequest(origin, path, channel, None, RequestBody(original, None).value)])
  {
    var q := TokenRequest(origin, path, channel, None, RequestBody(original, None).value);
    assert FetchJson(p, q).result == Failure(IllegalState);
  }

  /** Every request of the tenant loop is a tenant-scoped token POST to
      Keystone. */
  lemma TenantRequestsToKeystone(p: Platform, origin: string, path: string, channel: Channel, original: Strategy,
                                 unscoped: Option<string>, names: seq<string>)
    ensures forall q :: q in TryInOrder(TenantAttempt(p, origin, path, channel, original, unscoped), names).sent ==>
              ToKeystone(q, channel) && q.verb == Post && q.payload.KeystonePayload? && q.payload.tenantName.Some?
  {
    var attempt := TenantAttempt(p, origin, path, channel, original, unscoped);
    forall q | q in TryInOrder(attempt, names).sent
      ensures ToKeystone(q, channel) && q.verb == Post && q.payload.KeystonePayload? && q.payload.tenantName.Some?
    {
      var t :| t in names && q in attempt(t).sent;
      TokenRequestToKeystone(p, origin, path, channel, original, unscoped, t);
    }
  }

  /** The request of one tenant's attempt. */
  lemma TokenRequestToKeystone(p: Platform, origin: string, path: string, channel: Channel, original: Strategy,
                               unscoped: Option<string>, tenant: string)
    ensures forall q :: q in RequestToken(p, origin, path, channel, original, unscoped, Some(tenant)).sent ==>
              ToKeystone(q, channel) && q.verb == Post && q.payload == RequestBody(original, Some(tenant)).value &&
              q.payload.KeystonePayload? && q.payload.tenantName == Some(tenant)
  {
    var r := RequestToken(p, origin, path, channel, original, unscoped, Some(tenant));
    if RequestBody(original, Some(tenant)).Success? {
      var q := TokenRequest(origin, path, channel, unscoped, RequestBody(original, Some(tenant)).value);
      assert r.sent == [q];
      assert |q.headers| >= 2;
    }
  }

  /** The token request for one tenant, made with the unscoped token. */
  function TenantAttempt(p: Platform, origin: string, path: string, channel: Channel, original: Strategy,
                         unscoped: Option<string>): (attempt: string -> Io<Option<string>>)
    ensures forall t :: attempt(t) == RequestToken(p, origin, path, channel, original, unscoped, Some(t))
  {
    t => RequestToken(p, origin, path, channel, original, unscoped, Some(t))
  }
}

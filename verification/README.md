# jOCCI-api client core in Dafny

This project models the client side of jOCCI-api, the Java library that talks
OCCI (Open Cloud Computing Interface) to a cloud server over HTTP:

- `HTTPClient` and the `Client` state it extends: construction, `connect`,
  model discovery at the query interface `/-/`, `list`, `describe`,
  `create`, `delete`, `trigger` and `refresh`, each with the error paths of the
  Java code except those listed under "Left out";
- `HTTPConnection`'s header list and `HTTPHelper`'s request runners;
- the authentication strategies: `NoAuthentication`, `BasicAuthentication`,
  `DigestAuthentication`, `X509Authentication`, `VOMSAuthentication`, their
  common `HTTPAuthentication` probe, the certificate loading of
  `CertificateAuthentication`, and the `KeystoneAuthentication` fallback with
  its token and tenant exchange;
- `EntityBuilder`, which makes resources, links and action instances from the
  kinds, mixins and actions of a discovered model.

Everything is a pure function over immutable data.  An operation on the
client returns the client after it, its result (a `Result` carrying the Java
exception as an `Error` value) and the list of HTTP requests it sent, so the
contracts can speak of what went over the wire, in what order, and with which
headers.  The network, the file system, the OCCI text parser and renderer,
the JSON reader and `URI.normalize` are parameters (oracles) of the model.

Modules, in dependency order: `Wrappers`, `Errors`, `Text`, `Headers`,
`Uris`, `Categories`, `Http`, `Strategies`, `Certificates`, `Platform`,
`KeystoneAuth`, `Client`, `HttpAuthentication`, `Entities`, `EntityBuilder`,
`HttpClient`.

## Model

| member | source | states |
|---|---|---|
| Headers.AddHeader | src/main/java/cz/cesnet/cloud/occi/api/http/HTTPConnection.java:43-57 | the header of the same name is replaced and the new one goes last; the other headers keep their order; unique names stay unique; a new name is simply appended |
| Headers.AddHeaderLookup | src/main/java/cz/cesnet/cloud/occi/api/http/HTTPConnection.java:43-57 | after adding, the added name looks up the new value and every other name looks up what it did before |
| Headers.SetMediaType | src/main/java/cz/cesnet/cloud/occi/api/http/HTTPConnection.java:66-74 | Content-Type and then Accept end the list, both carrying the media type; every other header keeps its value |
| Headers.ClearHeaders | src/main/java/cz/cesnet/cloud/occi/api/http/HTTPConnection.java:59-64 | the Java `clearHeaders`: the connection is left with an empty header list, so no header set earlier (a token, a media type) is sent afterwards |
| Headers.AddHeaderAsWrittenCompletes | src/main/java/cz/cesnet/cloud/occi/api/http/HTTPConnection.java:49-56 | the for-each removal as written completes exactly when the name is new or sits second-to-last, then agrees with the corrected replace; otherwise it fails with a concurrent-modification error |
| Headers.MediaTypeChangeAfterTokenFails | src/main/java/cz/cesnet/cloud/occi/api/http/HTTPConnection.java:49-56 | changing the media type once a Keystone token is installed fails as written, while the corrected replace yields Accept, X-Auth-Token, Content-Type |
| Headers.SetMediaTypeLookup | src/main/java/cz/cesnet/cloud/occi/api/http/HTTPConnection.java:71-74 | after setting the media type Content-Type and Accept look up the media type and every other name what it did before |
| Http.RunRequest | src/main/java/cz/cesnet/cloud/occi/api/http/HTTPHelper.java:111-129 | exactly one request; success exactly when the answer has the expected status; a transport failure is wrapped; a wrong status fails with the status line, a newline and the body |
| Http.RunRequestForStatus | src/main/java/cz/cesnet/cloud/occi/api/http/HTTPHelper.java:135-148 | exactly one request; the result is true exactly when the status is 200; only a transport failure fails |
| Http.StripParameters | src/main/java/cz/cesnet/cloud/occi/api/http/HTTPClient.java:189-192 | the media type is the Content-Type up to its first semicolon, and the whole value when there is none |
| Http.ReadResponse | src/main/java/cz/cesnet/cloud/occi/api/http/HTTPClient.java:185-198 | a response is read exactly when it has a Content-Type (case ignored) and a body; a missing Content-Type is a null dereference |
| Http.FirstHeader | src/main/java/cz/cesnet/cloud/occi/api/http/HTTPClient.java:188 | the value of the first header (in list order) whose name equals the asked one ignoring ASCII case: no earlier header has that name; none exactly when no name does |
| Uris.FullUri | src/main/java/cz/cesnet/cloud/occi/api/http/HTTPClient.java:548-558 | a URI with a host is kept; a relative one is written after the endpoint and keeps the endpoint's origin |
| Uris.FullUriIdempotent | src/main/java/cz/cesnet/cloud/occi/api/http/HTTPClient.java:548-558 | against an endpoint with a host, resolving a URI that was already resolved leaves it unchanged, because the result of resolution always names a host |
| Uris.FullUriRoundTrip | src/main/java/cz/cesnet/cloud/occi/api/http/HTTPClient.java:548-558 | resolving a relative reference against the endpoint is undone by taking the text after the endpoint, and every URI under the endpoint is the resolution of exactly that reference: relative references resolve injectively and lose nothing |
| Client.NewClientState | src/main/java/cz/cesnet/cloud/occi/api/Client.java:18-21 | a new client has no endpoint, no model and no authentication, and is not connected |
| Client.SetEndpoint | src/main/java/cz/cesnet/cloud/occi/api/Client.java:37-39 | the Java setter: the endpoint is stored normalised and the rest of the client state is left as it was |
| Client.SetModel | src/main/java/cz/cesnet/cloud/occi/api/Client.java:55-57 | the Java setter: the model is replaced (possibly by none) and the rest of the client state is left as it was |
| Client.SetConnected | src/main/java/cz/cesnet/cloud/occi/api/Client.java:73-75 | the Java setter: the flag is set and the rest of the client state is left as it was |
| Client.SetAuthentication | src/main/java/cz/cesnet/cloud/occi/api/Client.java:91-93 | the Java setter: the authentication is replaced and the rest of the client state is left as it was |
| Strategies.Identifier | src/main/java/cz/cesnet/cloud/occi/api/http/auth/BasicAuthentication.java:32 | each strategy answers one of the six identifier constants |
| Strategies.IdentifierNamesVariant | src/main/java/cz/cesnet/cloud/occi/api/http/auth/KeystoneAuthentication.java:191-209 | two strategies have the same identifier exactly when they are the same kind of strategy, so the switch on the identifier is sound |
| Strategies.Fallback | src/main/java/cz/cesnet/cloud/occi/api/http/auth/BasicAuthentication.java:88-91 | the fallback is Keystone wrapping the strategy itself; there is none exactly for NoAuthentication and Keystone |
| Strategies.AuthScheme | src/main/java/cz/cesnet/cloud/occi/api/http/auth/DigestAuthentication.java:25-28 | Basic authenticates with the Basic scheme and Digest with the Digest scheme |
| Strategies.NewNoAuth | src/main/java/cz/cesnet/cloud/occi/api/http/auth/NoAuthentication.java:10-22 | NoAuthentication answers its identifier, has no fallback and no CA settings |
| Strategies.NewBasic | src/main/java/cz/cesnet/cloud/occi/api/http/auth/BasicAuthentication.java:37-41 | a Basic strategy keeps the given username and password and uses the Basic scheme |
| Strategies.NewDigest | src/main/java/cz/cesnet/cloud/occi/api/http/auth/DigestAuthentication.java:25-28 | a Digest strategy keeps the given username and password and uses the Digest scheme |
| Strategies.NewKeystone | src/main/java/cz/cesnet/cloud/occi/api/http/auth/KeystoneAuthentication.java:50-52 | the Keystone strategy wraps the original strategy |
| Strategies.NewX509 | src/main/java/cz/cesnet/cloud/occi/api/http/auth/X509Authentication.java:32-39 | a null password is a null dereference and an empty one is refused before the certificate is looked at; otherwise the certificate is validated; success holds both as given |
| Strategies.NewVoms | src/main/java/cz/cesnet/cloud/occi/api/http/auth/VOMSAuthentication.java:31-35 | the certificate is validated and the password fixed to the empty string |
| Strategies.SetUsername | src/main/java/cz/cesnet/cloud/occi/api/http/auth/BasicAuthentication.java:61-63 | the username is stored as given and nothing else changes |
| Strategies.SetPassword | src/main/java/cz/cesnet/cloud/occi/api/http/auth/BasicAuthentication.java:79-81 | the password is stored as given and nothing else changes |
| Strategies.SetCAPath | src/main/java/cz/cesnet/cloud/occi/api/http/auth/HTTPAuthentication.java:107-109 | the CA directory is replaced and nothing else changes |
| Strategies.SetCAFile | src/main/java/cz/cesnet/cloud/occi/api/http/auth/HTTPAuthentication.java:125-127 | the CA file is replaced and nothing else changes |
| Strategies.SetCertificate | src/main/java/cz/cesnet/cloud/occi/api/http/auth/CertificateAuthentication.java:78-87 | a null certificate and an empty one are refused with their messages; otherwise only the certificate changes |
| Strategies.SetCertificatePassword | src/main/java/cz/cesnet/cloud/occi/api/http/auth/X509Authentication.java:57-62 | X509 dereferences a null password and refuses an empty one; VOMS refuses only null, with its message; success changes only the password |
| Certificates.AcceptsPemIsSuffixTest | src/main/java/cz/cesnet/cloud/occi/api/http/auth/HTTPAuthentication.java:249-261 | the CA directory filter keeps exactly the names longer than ".pem" that end with it |
| Certificates.PemFiles | src/main/java/cz/cesnet/cloud/occi/api/http/auth/HTTPAuthentication.java:263 | the listed files kept are exactly the listed names the filter accepts |
| Certificates.LoadCAs | src/main/java/cz/cesnet/cloud/occi/api/http/auth/HTTPAuthentication.java:217-228 | a set CA file wins over a set CA directory; a CA directory that is not a directory fails with its message; with neither, the system default trust is used |
| Certificates.CertificateBlocks | src/main/java/cz/cesnet/cloud/occi/api/http/auth/CertificateAuthentication.java:150-173 | every block found starts with the BEGIN and ends with the END certificate marker; a failure is "cannot load user certificate" |
| Certificates.CertificateBlocksFailsIffUnclosed | src/main/java/cz/cesnet/cloud/occi/api/http/auth/CertificateAuthentication.java:153-173 | the corrected scan fails exactly when some certificate block is never closed |
| Certificates.CertificateBlocksComplete | src/main/java/cz/cesnet/cloud/occi/api/http/auth/CertificateAuthentication.java:153-173 | a successful split has one block per BEGIN certificate marker in the text, and the k-th block runs from the k-th BEGIN marker through the end of the first END marker after it |
| Certificates.CertificateBlocksAreBlocks | src/main/java/cz/cesnet/cloud/occi/api/http/auth/CertificateAuthentication.java:153-173 | the blocks found are, in order, the blocks starting at each BEGIN certificate marker, so no certificate is skipped, merged or reordered |
| Certificates.CertificateBlocksAsWritten | src/main/java/cz/cesnet/cloud/occi/api/http/auth/CertificateAuthentication.java:157-159 | as written, a missing END marker can only fail by an index out of bounds |
| Certificates.UnclosedAfterPreambleFails | src/main/java/cz/cesnet/cloud/occi/api/http/auth/CertificateAuthentication.java:157-159 | a text with 26 characters before an unclosed BEGIN marker makes the scan as written index out of bounds, while the corrected scan reports the certificate |
| Certificates.KeyTypesSpelledOut | src/main/java/cz/cesnet/cloud/occi/api/http/auth/CertificateAuthentication.java:175 | the key types the marker pattern allows are RSA, DSA, EC and DH, each followed by a space |
| Certificates.KeyTypesThenTailComplete | src/main/java/cz/cesnet/cloud/occi/api/http/auth/CertificateAuthentication.java:175 | every sequence of key types followed by "PRIVATE KEY-----" is matched, up to the end of the tail |
| Certificates.KeyTypesThenTailSound | src/main/java/cz/cesnet/cloud/occi/api/http/auth/CertificateAuthentication.java:175 | whatever the matcher accepts before the tail is a sequence of key types |
| Certificates.FindKeyMarker | src/main/java/cz/cesnet/cloud/occi/api/http/auth/CertificateAuthentication.java:175-189 | the leftmost key marker at or after the start, and none exactly when no marker starts there or later |
| Certificates.PrivateKey | src/main/java/cz/cesnet/cloud/occi/api/http/auth/CertificateAuthentication.java:175-191 | the key fails with "cannot read certificate key" exactly when there is no BEGIN marker or no END marker after it; a key found is exactly the text from the first BEGIN key marker through the end of the first END key marker after it |
| Certificates.PrivateKeyIsMarkedSlice | src/main/java/cz/cesnet/cloud/occi/api/http/auth/CertificateAuthentication.java:191 | the key is the text from the first BEGIN marker to the end of the following END marker, and trimming changes nothing |
| Certificates.LoadIdentity | src/main/java/cz/cesnet/cloud/occi/api/http/auth/CertificateAuthentication.java:111-150 | a ".p12" path is a PKCS12 store; otherwise an unreadable file fails and the PEM text yields its certificate blocks and key |
| Certificates.AsWrittenAgreesWhenClosed | src/main/java/cz/cesnet/cloud/occi/api/http/auth/CertificateAuthentication.java:153-173 | whenever the corrected scan succeeds, the scan as written gives the same blocks |
| KeystoneAuth.CheckResponse | src/main/java/cz/cesnet/cloud/occi/api/http/auth/KeystoneAuthentication.java:72-80 | no response and a response without Www-Authenticate fail with their messages; otherwise the first such header value is the challenge |
| KeystoneAuth.StripFinalTerminator | src/main/java/cz/cesnet/cloud/occi/api/http/auth/KeystoneAuthentication.java:43 | the pattern's "$" may match before one final line terminator (CR LF counting as one) |
| KeystoneAuth.ParseChallenge | src/main/java/cz/cesnet/cloud/occi/api/http/auth/KeystoneAuthentication.java:86-91 | an accepted challenge is well formed and carries the URI returned; a rejected one fails with "incorrect Www-Authenticate content" |
| KeystoneAuth.ParseChallengeComplete | src/main/java/cz/cesnet/cloud/occi/api/http/auth/KeystoneAuthentication.java:43-44 | every well-formed challenge is accepted with its own URI |
| KeystoneAuth.ChallengeRoundTrip | src/main/java/cz/cesnet/cloud/occi/api/http/auth/KeystoneAuthentication.java:43-44 | writing a URI into either challenge opening, with or without a line ending, and parsing it gives the URI back |
| KeystoneAuth.NormalisePath | src/main/java/cz/cesnet/cloud/occi/api/http/auth/KeystoneAuthentication.java:95-106 | the normalised path always ends with "/v2.0" |
| KeystoneAuth.NormalisePathCases | src/main/java/cz/cesnet/cloud/occi/api/http/auth/KeystoneAuthentication.java:95-106 | a path ending in "/v2.0" is kept, one ending in "/v2.0/" loses the slash, and any other gets "/v2.0" appended after dropping one trailing slash |
| KeystoneAuth.NormalisePathIdempotent | src/main/java/cz/cesnet/cloud/occi/api/http/auth/KeystoneAuthentication.java:95-106 | normalising a normalised path changes nothing |
| KeystoneAuth.KeystoneHeaders | src/main/java/cz/cesnet/cloud/occi/api/http/auth/KeystoneAuthentication.java:266-279 | JSON Content-Type and Accept, then X-Auth-Token exactly when a token is held |
| KeystoneAuth.KeystoneHeadersCarryToken | src/main/java/cz/cesnet/cloud/occi/api/http/auth/KeystoneAuthentication.java:266-279 | the Keystone headers have unique names and carry exactly the held token |
| KeystoneAuth.RequestBody | src/main/java/cz/cesnet/cloud/occi/api/http/auth/KeystoneAuthentication.java:184-223 | VOMS, Basic and Digest strategies have a body (VOMS flag or password credentials, plus the tenant when given); every other strategy fails with "unknown original authentication method" |
| KeystoneAuth.FetchJson | src/main/java/cz/cesnet/cloud/occi/api/http/auth/KeystoneAuthentication.java:121-142 | one request; success exactly when answered with 200 and a body the JSON reader reads, giving that document; a missing body fails; text that is not JSON is a wrapped I/O (communication) failure, and JSON of the wrong shape is the reader's IllegalStateException, which is not a communication failure |
| KeystoneAuth.TryInOrder | src/main/java/cz/cesnet/cloud/occi/api/http/auth/KeystoneAuthentication.java:145-182 | a success comes from one of the tenants' attempts, and every request sent belongs to an attempted tenant |
| KeystoneAuth.TryInOrderSpec | src/main/java/cz/cesnet/cloud/occi/api/http/auth/KeystoneAuthentication.java:145-182 | the first attempt that is not a skipped communication failure decides the result; when all are skipped the result is "no suitable tenant found" |
| KeystoneAuth.WrongShapeStopsTenantSearch | src/main/java/cz/cesnet/cloud/occi/api/http/auth/KeystoneAuthentication.java:145-182 | a scoped-token answer of the wrong shape for the first tenant is not skipped: the tenant search ends with the reader's error after that one request |
| KeystoneAuth.WrongShapeTokenAborts | src/main/java/cz/cesnet/cloud/occi/api/http/auth/KeystoneAuthentication.java:112-113 | an unscoped-token answer of the wrong shape ends the exchange with the reader's error after that one request |
| KeystoneAuth.ScopedToken | src/main/java/cz/cesnet/cloud/occi/api/http/auth/KeystoneAuthentication.java:145-182 | no tenants key keeps the unscoped token; an empty list fails; otherwise tenants are tried in order, each a tenant-scoped POST to Keystone |
| KeystoneAuth.Authenticate | src/main/java/cz/cesnet/cloud/occi/api/http/auth/KeystoneAuthentication.java:83-119 | success installs X-Auth-Token on the connection headers by replacement, and the token installed is exactly the one the exchange with the endpoint named in the challenge yields (unscoped token, tenant listing, first tenant whose scoped request succeeds); the first request is the token POST; every request goes to Keystone on the connection's channel; a strategy without a Keystone credential fails before sending |
| KeystoneAuth.Exchange | src/main/java/cz/cesnet/cloud/occi/api/http/auth/KeystoneAuthentication.java:112-118 | the exchange opens with the unscoped token POST; every request goes to Keystone on the connection's channel; success sets X-Auth-Token by replacement to exactly the token the unscoped request, the tenant listing and the scoped requests yield; a strategy without a Keystone credential fails before sending |
| KeystoneAuth.Scope | src/main/java/cz/cesnet/cloud/occi/api/http/auth/KeystoneAuthentication.java:114-118 | after the unscoped token every request (tenant listing and scoped token POSTs) goes to Keystone; success sets X-Auth-Token by replacement to the unscoped token when the listing names no tenants and otherwise to the token of the first tenant whose scoped request succeeds |
| KeystoneAuth.RequestToken | src/main/java/cz/cesnet/cloud/occi/api/http/auth/KeystoneAuthentication.java:121-132 | a POST of the token request body to the tokens path; no body means no request; success reads the token id of the 200 answer |
| HttpAuthentication.BuildChannel | src/main/java/cz/cesnet/cloud/occi/api/http/auth/HTTPAuthentication.java:141-156 | the channel is built exactly when the CAs load and, for certificate strategies, the identity loads; the identity on the channel is the one loaded from the certificate file; an identity failure is the failure the channel reports; password strategies get credentials for the target with their scheme; a Basic or Digest strategy without a username fails with "Username may not be null" before any CA is loaded |
| HttpAuthentication.PasswordCredentials | src/main/java/cz/cesnet/cloud/occi/api/http/auth/BasicAuthentication.java:94-101 | Basic and Digest credentials for the target with the strategy's scheme, failing with "Username may not be null" exactly when the username is null (a null password is kept); other strategies register none |
| HttpAuthentication.Authenticate | src/main/java/cz/cesnet/cloud/occi/api/http/auth/HTTPAuthentication.java:159-208 | a HEAD probe of the model path with the connection headers; success keeps the channel; a Keystone-extended success after a 401 answer sets exactly the headers Keystone authentication yields on that answer; Keystone alone has no response to react to; a Basic or Digest strategy without a username fails with "Username may not be null" and sends nothing |
| HttpAuthentication.ProbeDecision | src/main/java/cz/cesnet/cloud/occi/api/http/auth/HTTPAuthentication.java:182-202 | 200 succeeds, a 401 goes to the Keystone fallback when the strategy has one, any other answer fails with the status line, and a transport failure is wrapped |
| HttpAuthentication.X509FallbackFails | src/main/java/cz/cesnet/cloud/occi/api/http/auth/KeystoneAuthentication.java:192-209 | an X509 strategy refused with 401 fails after the probe alone, as Keystone has no credential for it |
| Categories.FindByTerm | src/main/java/cz/cesnet/cloud/occi/api/EntityBuilder.java:45-52 | a found element is in the list and carries the term |
| Categories.FindByTermSpec | src/main/java/cz/cesnet/cloud/occi/api/EntityBuilder.java:45-52 | not found exactly when no element carries the term, ambiguous exactly when two do, and found with the only one that does |
| Categories.FindById | src/main/java/cz/cesnet/cloud/occi/api/EntityBuilder.java:54-61 | none exactly when no element has the identifier; otherwise the first one that has it |
| Categories.FindKindByOwnId | src/main/java/cz/cesnet/cloud/occi/api/EntityBuilder.java:54-61 | in a model whose kinds have unique identifiers each kind is found by its own identifier |
| Entities.EmptyCollection | src/main/java/cz/cesnet/cloud/occi/api/http/HTTPClient.java:282 | a new collection holds no resources and no links |
| Entities.Merge | src/main/java/cz/cesnet/cloud/occi/api/http/HTTPClient.java:284-286 | the collection merge describe uses: the other collection's resources and links follow this one's, so nothing is dropped or reordered |
| Entities.EntityList | src/main/java/cz/cesnet/cloud/occi/api/http/HTTPClient.java:358-364 | the entity list describe returns: every link of the collection in order, then every resource in order |
| Entities.EntityListLinksFirst | src/main/java/cz/cesnet/cloud/occi/api/http/HTTPClient.java:358-364 | the list is exactly the collection's links followed by its resources, as multisets on either side of one split |
| Entities.MergeAllConcatenates | src/main/java/cz/cesnet/cloud/occi/api/http/HTTPClient.java:348-356 | folding merge over the per-location collections concatenates their resources and, separately, their links |
| EntityBuilder.NewBuilder | src/main/java/cz/cesnet/cloud/occi/api/EntityBuilder.java:37-43 | a null model is refused with "model cannot be null"; otherwise the builder holds it |
| EntityBuilder.SetModel | src/main/java/cz/cesnet/cloud/occi/api/EntityBuilder.java:497-499 | the model is replaced, possibly by none |
| EntityBuilder.ModelOf | src/main/java/cz/cesnet/cloud/occi/api/EntityBuilder.java:45-48 | a cleared model is a null dereference |
| EntityBuilder.KindOfTerm | src/main/java/cz/cesnet/cloud/occi/api/EntityBuilder.java:45-52 | a found kind is in the model with that term; unknown terms fail with "unknown type"; ambiguity is reported unwrapped |
| EntityBuilder.KindOfId | src/main/java/cz/cesnet/cloud/occi/api/EntityBuilder.java:54-61 | success exactly when some kind has the identifier; otherwise "unknown identifier" |
| EntityBuilder.MixinOfId | src/main/java/cz/cesnet/cloud/occi/api/EntityBuilder.java:96-103 | success exactly when some mixin has the identifier; otherwise "unknown identifier" |
| EntityBuilder.ActionOfTerm | src/main/java/cz/cesnet/cloud/occi/api/EntityBuilder.java:105-112 | a found action is in the model with that term; unknown terms fail with "unknown type" |
| EntityBuilder.ActionOfId | src/main/java/cz/cesnet/cloud/occi/api/EntityBuilder.java:114-121 | success exactly when some action has the identifier; otherwise "unknown identifier" |
| EntityBuilder.KindOfClass | src/main/java/cz/cesnet/cloud/occi/api/EntityBuilder.java:63-94 | the five infrastructure classes get the model's kind at their canonical identifier, else the class default; any other class fails with "unknown class" |
| EntityBuilder.IpMixin | src/main/java/cz/cesnet/cloud/occi/api/EntityBuilder.java:339-349 | the model's mixin at the canonical IP identifier, else the class default mixin |
| EntityBuilder.Create | src/main/java/cz/cesnet/cloud/occi/api/EntityBuilder.java:385-479 | a new entity of the class with the given id and kind, no mixins, bound to the builder's model |
| EntityBuilder.WrapAmbiguity | src/main/java/cz/cesnet/cloud/occi/api/EntityBuilder.java:130-137 | only an ambiguity is wrapped in an entity-building error; success and other errors pass through |
| EntityBuilder.GetByTerm | src/main/java/cz/cesnet/cloud/occi/api/EntityBuilder.java:158-165 | success builds from the kind found by term; an unknown term and an ambiguous one fail with their errors |
| EntityBuilder.GetByTermUnique | src/main/java/cz/cesnet/cloud/occi/api/EntityBuilder.java:158-165 | building by term succeeds exactly when one kind of the model carries the term, and then uses that kind |
| EntityBuilder.GetById | src/main/java/cz/cesnet/cloud/occi/api/EntityBuilder.java:217-218 | success exactly when a kind has the identifier, building from that kind; otherwise "unknown identifier" |
| EntityBuilder.GetDefault | src/main/java/cz/cesnet/cloud/occi/api/EntityBuilder.java:227-228 | with a model the default getters always succeed, using the kind of the class |
| EntityBuilder.GetIpById | src/main/java/cz/cesnet/cloud/occi/api/EntityBuilder.java:329-330 | success exactly when both the kind and the mixin are found; the entity carries that mixin |
| EntityBuilder.GetIpDefault | src/main/java/cz/cesnet/cloud/occi/api/EntityBuilder.java:339-349 | with a model the IP getters always succeed, with the network kind and the IP mixin |
| EntityBuilder.GetActionByTerm | src/main/java/cz/cesnet/cloud/occi/api/EntityBuilder.java:186-193 | success builds from the action found by term, bound to the model; ambiguity is wrapped |
| EntityBuilder.GetActionById | src/main/java/cz/cesnet/cloud/occi/api/EntityBuilder.java:204-205 | success exactly when an action has the identifier, bound to the model |
| HttpClient.Prepare | src/main/java/cz/cesnet/cloud/occi/api/http/HTTPHelper.java:31-35 | a request is prepared exactly when the connection has its HTTP client, carrying the given headers on the connection's channel |
| HttpClient.Connect | src/main/java/cz/cesnet/cloud/occi/api/http/HTTPClient.java:155-168 | an authentication that is not an HTTP strategy fails with its message and nothing sent; success means connected, with a channel and a model, the model GET sent last; the endpoint, target, media type and authentication never change |
| HttpClient.FetchModel | src/main/java/cz/cesnet/cloud/occi/api/http/HTTPClient.java:185-215 | one GET of the model path with the connection headers; on success the model is what the parser reads from the 200 answer's media type, body and converted (lower-cased) headers, and nothing else changes; on failure nothing changes |
| HttpClient.CheckConnection | src/main/java/cz/cesnet/cloud/occi/api/http/HTTPClient.java:170-174 | a connected client is left as it is with nothing sent; otherwise it connects, and a success leaves it connected with a channel and a model, the model GET sent last; the endpoint, target, media type and authentication never change |
| HttpClient.ObtainModel | src/main/java/cz/cesnet/cloud/occi/api/http/HTTPClient.java:204-215 | refresh fetches the model of a connected client once; an unconnected one connects first, so the model GET goes out twice in a row; on success the model is what the parser reads from the answer to the last request, the model GET |
| HttpClient.SetClientMediaType | src/main/java/cz/cesnet/cloud/occi/api/http/HTTPClient.java:137-140 | the media type and the Content-Type and Accept headers are set, every other header keeps its value |
| HttpClient.ModelOf | src/main/java/cz/cesnet/cloud/occi/api/http/HTTPClient.java:233 | a client without a model is a null dereference |
| HttpClient.KindOfTerm | src/main/java/cz/cesnet/cloud/occi/api/http/HTTPClient.java:229-242 | success exactly when the term names one kind; ambiguity is wrapped; an unknown term is "unknown resource type" |
| HttpClient.Resolve | src/main/java/cz/cesnet/cloud/occi/api/http/HTTPClient.java:548-558 | a URI with a host is kept; a relative one is written after the endpoint and normalised, and without an endpoint that is a null dereference |
| HttpClient.ConvertHeaders | src/main/java/cz/cesnet/cloud/occi/api/http/HTTPClient.java:176-183 | response header names are lower-cased and the values kept |
| HttpClient.RunListGet | src/main/java/cz/cesnet/cloud/occi/api/http/HTTPClient.java:264-274 | on a connected client exactly one GET with the prepared headers and nothing changes; a success ends with that GET, and the locations returned are what the parser reads from its 200 answer |
| HttpClient.List | src/main/java/cz/cesnet/cloud/occi/api/http/HTTPClient.java:229-248 | the empty type lists "/" with the headers the connection had at the call; any other type lists the location of the kind it names, with the headers after connecting; the locations returned are what the parser reads from the answer to the last GET; on a connected client with a model, an unknown term fails with "unknown resource type '<term>'" and an ambiguous one with a wrapped ambiguity error, both with nothing sent |
| HttpClient.ListId | src/main/java/cz/cesnet/cloud/occi/api/http/HTTPClient.java:254-262 | success lists the location of the kind with that identifier, returning what the parser reads from the answer to the last GET; an identifier that names no kind fails with "unknown resource identifier" and nothing sent |
| HttpClient.DescribeOne | src/main/java/cz/cesnet/cloud/occi/api/http/HTTPClient.java:335-346 | on a connected client one GET of the resolved location, and the collection returned is what the parser reads from its 200 answer as the location's collection type; a location whose type the model does not know fails naming the resolved location with nothing sent |
| HttpClient.FetchTarget | src/main/java/cz/cesnet/cloud/occi/api/http/HTTPClient.java:336 | listed locations are fetched as given, others after resolving against the endpoint |
| HttpClient.DescribeEach | src/main/java/cz/cesnet/cloud/occi/api/http/HTTPClient.java:348-356 | on a connected client one request per location, with the client unchanged; the accumulated resources and links are kept as prefixes |
| HttpClient.DescribeEachSends | src/main/java/cz/cesnet/cloud/occi/api/http/HTTPClient.java:348-356 | on a connected client a successful loop sends exactly one GET per location, in the order of the locations, each to that location's target with the connection headers |
| HttpClient.DescribeEachSent | src/main/java/cz/cesnet/cloud/occi/api/http/HTTPClient.java:348-356 | the request a successful loop sends for the i-th location is the GET of that location's target |
| HttpClient.DescribeEachCollects | src/main/java/cz/cesnet/cloud/occi/api/http/HTTPClient.java:348-356 | on a connected client a successful loop describes every location, and its accumulated resources and links are the accumulator followed by those of each location's collection, in order |
| HttpClient.DescribeEachMerges | src/main/java/cz/cesnet/cloud/occi/api/http/HTTPClient.java:348-364 | the entity list of a successful loop is the entity list of the merge of the collections of every location, in order |
| HttpClient.Describe | src/main/java/cz/cesnet/cloud/occi/api/http/HTTPClient.java:280-288 | lists the root first with the connection headers; a success is the entity list of the merge of the collections read from the answers to one GET per listed location, in listing order |
| HttpClient.DescribeTerm | src/main/java/cz/cesnet/cloud/occi/api/http/HTTPClient.java:294-311 | an unknown or ambiguous term and a kind without a collection type fail with nothing sent; a success lists the kind's location and is the entity list of the merged collections, of the kind's collection type, read from the answers to one GET per listed location |
| HttpClient.DescribeId | src/main/java/cz/cesnet/cloud/occi/api/http/HTTPClient.java:317-333 | a kind without a collection type fails; for a kind, a success is the entity list of the merged collections of every location listed for it; an identifier that names no kind is described as one resolved location with exactly one GET |
| HttpClient.DescribeLocation | src/main/java/cz/cesnet/cloud/occi/api/http/HTTPClient.java:328-332 | an identifier naming no kind: on a connected client exactly one more request, a GET of the resolved identifier, and a success is the entity list of that one location's collection |
| HttpClient.CreatedMediaType | src/main/java/cz/cesnet/cloud/occi/api/http/HTTPClient.java:408-412 | the answer is read as text/occi exactly when it is not, its trimmed body is "OK" and it has a Location header |
| HttpClient.FirstLocation | src/main/java/cz/cesnet/cloud/occi/api/http/HTTPClient.java:414-419 | the first parsed location; an empty list is "no location returned" |
| HttpClient.Create | src/main/java/cz/cesnet/cloud/occi/api/http/HTTPClient.java:382-424 | an entity without kind and an unsupported media type fail with nothing sent; success POSTs to the kind's location with the headers held at the call first, answered with 201, and returns the first location the parser reads from that answer |
| HttpClient.PostEntity | src/main/java/cz/cesnet/cloud/occi/api/http/HTTPClient.java:405-423 | the connection check comes before the POST; a success is a 201 answer to a POST of exactly the prepared headers and body, the last request sent, and the location returned is the first one read from that answer; a connected client is left unchanged |
| HttpClient.KindLocation | src/main/java/cz/cesnet/cloud/occi/api/http/HTTPClient.java:430-440 | success is the location of the kind the term names, after connecting; an unknown or ambiguous term fails with nothing sent |
| HttpClient.ConnectedTarget | src/main/java/cz/cesnet/cloud/occi/api/http/HTTPClient.java:451-461 | the kind's location when the identifier names a kind, otherwise the resolved identifier |
| HttpClient.DeleteTerm | src/main/java/cz/cesnet/cloud/occi/api/http/HTTPClient.java:430-445 | a DELETE of the kind's location; the result is true exactly when the answer is 200 |
| HttpClient.DeleteId | src/main/java/cz/cesnet/cloud/occi/api/http/HTTPClient.java:451-464 | a DELETE of the kind's location or of the resolved identifier, with the connection headers; true exactly when the answer is 200 |
| HttpClient.TriggerTerm | src/main/java/cz/cesnet/cloud/occi/api/http/HTTPClient.java:471-506 | a POST to the kind's location with "?action=" and the action term; an unsupported media type fails after the lookup with nothing sent; true exactly when the answer is 200 |
| HttpClient.TriggerId | src/main/java/cz/cesnet/cloud/occi/api/http/HTTPClient.java:513-546 | a POST to the kind's location or the resolved identifier with the action query; true exactly when the answer is 200 |
| HttpClient.New | src/main/java/cz/cesnet/cloud/occi/api/http/HTTPClient.java:89-109 | a null endpoint fails with "endpoint cannot be null"; the endpoint is stored normalised and the target taken from it as given; a null authentication becomes NoAuthentication; without autoconnect nothing is sent and the headers are Content-Type and Accept of the media type; with it the client is connected and has a model |
| HttpClient.Send | src/main/java/cz/cesnet/cloud/occi/api/http/HTTPClient.java:185-198 | exactly the prepared request is sent; success means it was answered with the expected status and the answer was readable; without an HTTP client nothing is sent and the call is a null dereference |
| HttpClient.SendForStatus | src/main/java/cz/cesnet/cloud/occi/api/http/HTTPHelper.java:135-148 | exactly the prepared request is sent; the answer is true exactly when its status is 200 |
| HttpClient.RunDescribeGet | src/main/java/cz/cesnet/cloud/occi/api/http/HTTPClient.java:366-376 | on a connected client exactly one GET with the prepared headers and nothing changes; a success ends with that GET, and the collection is what the parser reads from its 200 answer |
| HttpClient.Render | src/main/java/cz/cesnet/cloud/occi/api/http/HTTPClient.java:390-403 | text/occi renders to headers after the connection headers and text/plain to a body; any other media type is "unsupported media type" |
| HttpClient.DescribeListed | src/main/java/cz/cesnet/cloud/occi/api/http/HTTPClient.java:348-356 | a failed listing fails describe with the requests so far; a success is the entity list of the merged collections read from one GET per listed location |
| HttpClient.SendStatus | src/main/java/cz/cesnet/cloud/occi/api/http/HTTPClient.java:441-444 | one request after the lookups, on the connection's channel, its headers starting with the connection headers; the answer is true exactly when 200 |

## Left out

- TLS itself: SSL contexts, key stores, `PEMReader` and the decoding of certificates and keys are not modelled; a PEM file is reduced to the certificate blocks and key text the Java code cuts out of it, and a PKCS12 path to the fact that it is one.
- JSON: the Keystone answers are read through an oracle that yields the token id and the tenant names, text that is not JSON (an `IOException`), or JSON of the wrong shape (Gson's `IllegalStateException`, which no `catch` of the exchange handles, so it ends authentication even inside the tenant loop); the reader's streaming order is not modelled, so a tenant listing that turns out malformed or of the wrong shape after its first names is treated as rejected before any tenant is tried; a missing token id is installed as the empty string where Java would install a header with a null value.
- HttpClient.New: a null media type is not modelled (the media type is a string). Java accepts it, sends `Content-Type` and `Accept` headers without a value, and fails with a `NullPointerException` at the media-type `switch` of `create` and `trigger` (HTTPClient.java:390, 486, 526).
- The OCCI text parser and renderer (`TextParser`, `toHeaders`, `toText`) and `Model.findKindType` belong to the OCCI core library, which is not part of this model; they are oracles, and parse and render failures carry no message.
- URIs are a record of origin and path; `URI.normalize`, `URI.create` and `URISyntaxException` are not modelled beyond the oracle `normalize`.
- HttpClient.Resolve: a URI syntax error when joining the endpoint and the reference is not modelled, because URIs are not parsed.
- Timeouts, SNI, the debug-only content-compression switch and logging have no observable effect on the results and are left out.
- HttpAuthentication.Authenticate: the "unknown fallback method" branch cannot be taken, because every fallback is Keystone; it is left out.
- HttpAuthentication.Authenticate: the HTTP client Java installs on the connection before a failed probe stays there; the model keeps the channel only on success, which changes nothing a caller can see through the client, whose operations connect again.
- The JDK's `com.sun.net.httpserver.Headers` map that holds response headers is not modelled as a map: its keys are normalised (first letter upper case, the rest lower case, ASCII only), so a lookup such as `containsKey("Location")` finds a header exactly when its name equals the key ignoring ASCII case, and the model keeps the lower-cased header list and looks names up that way.
- HttpClient.ConvertHeaders: lower-casing covers ASCII letters only.
- `responseMediaType`, `responseBody` and `responseHeaders`, which Java keeps as fields between calls, are returned values here.
- Entity identifiers are UUIDs generated by the OCCI core library; they are parameters here.
- `Collection.merge` is modelled as concatenation of the resource and link lists.
- Closing of responses and streams, and I/O failures while reading a body, are not modelled beyond a missing body.

## Findings

| source | as written | input that shows it | evidently intended | confidence | as-written member | corrected member |
|---|---|---|---|---|---|---|
| src/main/java/cz/cesnet/cloud/occi/api/http/HTTPConnection.java:49-56 | the for-each loop removes the matching header from the list it is iterating, so the iterator fails with `ConcurrentModificationException` unless the removed header is second-to-last | headers Content-Type, Accept, X-Auth-Token (as after a Keystone login) and a new Content-Type, i.e. changing the media type of a connected client | replace the header of the same name and append the new one | not executed | Headers.MediaTypeChangeAfterTokenFails | Headers.AddHeader |
| src/main/java/cz/cesnet/cloud/occi/api/http/auth/CertificateAuthentication.java:157-159 | when a BEGIN CERTIFICATE marker has no END marker after it, `indexOf` gives -1 and `substring(start, -1 + 25)` throws `StringIndexOutOfBoundsException` (or, for a marker within 24 characters of the start, cuts a wrong block) | 26 characters of text followed by an unclosed BEGIN CERTIFICATE marker | report "cannot load user certificate" | not executed | Certificates.UnclosedAfterPreambleFails | Certificates.CertificateBlocksFailsIffUnclosed |

/** The authentication strategies as one closed variant, with the dispatch
    table each strategy class contributes: its identifier, its fallback and,
    for the password strategies, the HTTP authentication scheme.  Constructors
    and setters validate their arguments as the strategy classes do; an absent
    Java reference is `None`. */
module Strategies {
  import opened Wrappers
  import opened Errors

  const NO_AUTH_ID := "OCCINoAuthentication"
  const BASIC_ID := "OCCIBasicAuthentication"
  const DIGEST_ID := "OCCIDigestAuthentication"
  const X509_ID := "OCCIX509Authentication"
  const VOMS_ID := "OCCIVOMSAuthentication"
  const KEYSTONE_ID := "OCCIKeystoneAuthentication"

  /** The HTTP authentication schemes of Apache HttpClient's `AuthSchemes`. */
  const BASIC_SCHEME := "Basic"
  const DIGEST_SCHEME := "Digest"

  datatype Variant =
    | NoAuth
    | Basic(username: Option<string>, password: Option<string>)
    | Digest(username: Option<string>, password: Option<string>)
    | X509(certificate: string, certificatePassword: string)
    | Voms(certificate: string, certificatePassword: string)
    /** Keystone, reacting to the 401 its original strategy received. */
    | Keystone(original: Strategy)

  /** A strategy with the CA settings every HTTP authentication carries. */
  datatype Strategy = Strategy(variant: Variant, caFile: Option<string>, caPath: Option<string>)

  predicate UsesPassword(v: Variant) { v.Basic? || v.Digest? }
  predicate UsesCertificate(v: Variant) { v.X509? || v.Voms? }

  /** `getIdentifier()`. */
  function Identifier(v: Variant): (r: string)
    ensures r in {NO_AUTH_ID, BASIC_ID, DIGEST_ID, X509_ID, VOMS_ID, KEYSTONE_ID}
  {
    match v
    case NoAuth => NO_AUTH_ID
    case Basic(_, _) => BASIC_ID
    case Digest(_, _) => DIGEST_ID
    case X509(_, _) => X509_ID
    case Voms(_, _) => VOMS_ID
    case Keystone(_) => KEYSTONE_ID
  }

  /** Same constructor, whatever the fields. */
  predicate SameVariant(a: Variant, b: Variant) {
    (a.NoAuth? && b.NoAuth?) || (a.Basic? && b.Basic?) || (a.Digest? && b.Digest?) ||
    (a.X509? && b.X509?) || (a.Voms? && b.Voms?) || (a.Keystone? && b.Keystone?)
  }

  /** The identifier tells the strategies apart: it names the variant and
      nothing else. */
  lemma IdentifierNamesVariant(a: Variant, b: Variant)
    ensures Identifier(a) == Identifier(b) <==> SameVariant(a, b)
  {
    assert NO_AUTH_ID[4] == 'N' && BASIC_ID[4] == 'B' && DIGEST_ID[4] == 'D';
    assert X509_ID[4] == 'X' && VOMS_ID[4] == 'V' && KEYSTONE_ID[4] == 'K';
  }

  /** `getFallback()`: Keystone wrapping the strategy itself, except for the
      strategies that have none. */
  function Fallback(s: Strategy): (r: Option<Strategy>)
    ensures r.None? <==> s.variant.NoAuth? || s.variant.Keystone?
    ensures r.Some? ==> r.value.variant == Keystone(s)
  {
    if s.variant.NoAuth? || s.variant.Keystone? then None
    else Some(NewKeystone(s))
  }

  /** `authScheme` of the password strategies. */
  function AuthScheme(v: Variant): (r: string)
    requires UsesPassword(v)
    ensures v.Basic? <==> r == BASIC_SCHEME
    ensures v.Digest? <==> r == DIGEST_SCHEME
  {
    if v.Basic? then BASIC_SCHEME else DIGEST_SCHEME
  }

  /** The strategy a client substitutes for a null one. */
  function NewNoAuth(): (r: Strategy)
    ensures Identifier(r.variant) == NO_AUTH_ID && Fallback(r).None?
    ensures r.caFile.None? && r.caPath.None?
  {
    Strategy(NoAuth, None, None)
  }

  /** `new BasicAuthentication(username, password)`. */
  function NewBasic(username: Option<string>, password: Option<string>): (r: Strategy)
    ensures Identifier(r.variant) == BASIC_ID && AuthScheme(r.variant) == BASIC_SCHEME
    ensures Username(r) == username && Password(r) == password
    ensures r.caFile.None? && r.caPath.None?
  {
    Strategy(Basic(username, password), None, None)
  }

  /** `new DigestAuthentication(username, password)`: the Basic constructor,
      then the Digest scheme. */
  function NewDigest(username: Option<string>, password: Option<string>): (r: Strategy)
    ensures Identifier(r.variant) == DIGEST_ID && AuthScheme(r.variant) == DIGEST_SCHEME
    ensures Username(r) == username && Password(r) == password
    ensures r.caFile.None? && r.caPath.None?
  {
    Strategy(Digest(username, password), None, None)
  }

  /** `new KeystoneAuthentication(original)`. */
  function NewKeystone(original: Strategy): (r: Strategy)
    ensures Identifier(r.variant) == KEYSTONE_ID && r.variant.original == original
  {
    Strategy(Keystone(original), None, None)
  }

  function Username(s: Strategy): Option<string>
    requires UsesPassword(s.variant)
  {
    s.variant.username
  }

  function Password(s: Strategy): Option<string>
    requires UsesPassword(s.variant)
  {
    s.variant.password
  }

  /** `setUsername`: stored as given, nothing else changes. */
  function SetUsername(s: Strategy, username: Option<string>): (r: Strategy)
    requires UsesPassword(s.variant)
    ensures UsesPassword(r.variant) && SameVariant(r.variant, s.variant)
    ensures Username(r) == username && Password(r) == Password(s)
    ensures r.caFile == s.caFile && r.caPath == s.caPath
  {
    s.(variant := s.variant.(username := username))
  }

  /** `setPassword` of the password strategies: stored as given, nothing else
      changes. */
  function SetPassword(s: Strategy, password: Option<string>): (r: Strategy)
    requires UsesPassword(s.variant)
    ensures UsesPassword(r.variant) && SameVariant(r.variant, s.variant)
    ensures Password(r) == password && Username(r) == Username(s)
    ensures r.caFile == s.caFile && r.caPath == s.caPath
  {
    s.(variant := s.variant.(password := password))
  }

  /** `setCAPath` and `setCAFile`. */
  function SetCAPath(s: Strategy, caPath: Option<string>): (r: Strategy)
    ensures r.caPath == caPath && r.caFile == s.caFile && r.variant == s.variant
  {
    s.(caPath := caPath)
  }

  function SetCAFile(s: Strategy, caFile: Option<string>): (r: Strategy)
    ensures r.caFile == caFile && r.caPath == s.caPath && r.variant == s.variant
  {
    s.(caFile := caFile)
  }

  /** `setCertificate`: rejects a null and an empty certificate. */
  function SetCertificate(s: Strategy, certificate: Option<string>): (r: Result<Strategy>)
    requires UsesCertificate(s.variant)
    ensures certificate.None? ==> r == Failure(NullPointer("certificate cannot be null"))
    ensures certificate == Some("") ==> r == Failure(IllegalArgument("certificate cannot be empty"))
    ensures r.Success? <==> certificate.Some? && certificate.value != ""
    ensures r.Success? ==> UsesCertificate(r.value.variant) &&
                           r.value.variant.certificate == certificate.value &&
                           r.value.variant.certificatePassword == s.variant.certificatePassword &&
                           SameVariant(r.value.variant, s.variant) &&
                           r.value.caFile == s.caFile && r.value.caPath == s.caPath
  {
    match certificate
    case None => Failure(NullPointer("certificate cannot be null"))
    case Some(c) =>
      if c == "" then Failure(IllegalArgument("certificate cannot be empty"))
      else Success(s.(variant := s.variant.(certificate := c)))
  }

  /** `setPassword` of the certificate strategies.  X509 overrides it to also
      reject the empty password, testing emptiness first, so that a null
      password fails on the emptiness test without a message. */
  function SetCertificatePassword(s: Strategy, password: Option<string>): (r: Result<Strategy>)
    requires UsesCertificate(s.variant)
    ensures s.variant.X509? && password.None? ==> r == Failure(NullPointer(""))
    ensures s.variant.Voms? && password.None? ==> r == Failure(NullPointer("password cannot be null"))
    ensures s.variant.X509? && password == Some("") ==> r == Failure(IllegalArgument("password cannot be empty"))
    ensures r.Success? <==> password.Some? && (s.variant.Voms? || password.value != "")
    ensures r.Success? ==> UsesCertificate(r.value.variant) &&
                           r.value.variant.certificatePassword == password.value &&
                           r.value.variant.certificate == s.variant.certificate &&
                           SameVariant(r.value.variant, s.variant) &&
                           r.value.caFile == s.caFile && r.value.caPath == s.caPath
  {
    match password
    case None => if s.variant.X509? then Failure(NullPointer("")) else Failure(NullPointer("password cannot be null"))
    case Some(p) =>
      if s.variant.X509? && p == "" then Failure(IllegalArgument("password cannot be empty"))
      else Success(s.(variant := s.variant.(certificatePassword := p)))
  }

  /** `new X509Authentication(certificate, password)`: the password's
      emptiness is tested before the certificate is validated. */
  function NewX509(certificate: Option<string>, password: Option<string>): (r: Result<Strategy>)
    ensures password.None? ==> r == Failure(NullPointer(""))
    ensures password == Some("") ==> r == Failure(IllegalArgument("password cannot be empty"))
    ensures password.Some? && password.value != "" ==> r == SetCertificate(Strategy(X509("", password.value), None, None), certificate)
    ensures r.Success? <==> password.Some? && password.value != "" && certificate.Some? && certificate.value != ""
    ensures r.Success? ==> r.value == Strategy(X509(certificate.value, password.value), None, None)
  {
    match password
    case None => Failure(NullPointer(""))
    case Some(p) =>
      if p == "" then Failure(IllegalArgument("password cannot be empty"))
      else
        var withCertificate :- SetCertificate(Strategy(X509("", p), None, None), certificate);
        SetCertificatePassword(withCertificate, password)
  }

  /** `new VOMSAuthentication(certificate)`: the certificate is validated and
      the password fixed to the empty string. */
  function NewVoms(certificate: Option<string>): (r: Result<Strategy>)
    ensures r.Success? <==> certificate.Some? && certificate.value != ""
    ensures r.Success? ==> r.value == Strategy(Voms(certificate.value, ""), None, None)
    ensures r.Failure? ==> r == SetCertificate(Strategy(Voms("", ""), None, None), certificate)
  {
    var withCertificate :- SetCertificate(Strategy(Voms("", ""), None, None), certificate);
    SetCertificatePassword(withCertificate, Some(""))
  }
}

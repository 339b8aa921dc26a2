/** URIs as the client uses them: an origin (scheme, host and port, empty when
    the URI has no host) followed by the rest of the reference.  Parsing and
    `URI.normalize` belong to the Java runtime and are not part of this model. */
module Uris {
  import opened Wrappers
  import opened Text

  datatype Uri = Uri(origin: string, path: string)

  /** `uri.toString()`. */
  function ToText(u: Uri): string {
    u.origin + u.path
  }

  /** `uri.getHost() != null`. */
  predicate HasHost(u: Uri) {
    u.origin != []
  }

  /** `getFullUri`: a URI that already names a host is kept; a relative one is
      resolved by writing it after the endpoint's text. */
  function FullUri(endpoint: Uri, u: Uri): (r: Uri)
    ensures HasHost(u) ==> r == u
    ensures !HasHost(u) ==> r.origin == endpoint.origin && ToText(r) == ToText(endpoint) + ToText(u)
    ensures HasHost(endpoint) ==> HasHost(r)
  {
    if HasHost(u) then u else Uri(endpoint.origin, endpoint.path + u.path)
  }

  /** Resolving twice against an endpoint with a host is resolving once. */
  lemma FullUriIdempotent(endpoint: Uri, u: Uri)
    requires HasHost(endpoint)
    ensures FullUri(endpoint, FullUri(endpoint, u)) == FullUri(endpoint, u)
  {
  }

  /** The reference a URI under the endpoint was resolved from: its text
      after the endpoint's, when it has the endpoint's origin and path
      prefix. */
  function Relative(endpoint: Uri, r: Uri): Option<Uri> {
    if r.origin == endpoint.origin && StartsWith(r.path, endpoint.path) then Some(Uri([], r.path[|endpoint.path|..]))
    else None
  }

  /** Resolution of relative references is undone by `Relative`, and every URI
      `Relative` accepts is the resolution of the reference it yields: a
      relative reference loses nothing when resolved, and two different ones
      never resolve to the same URI. */
  lemma FullUriRoundTrip(endpoint: Uri, u: Uri, r: Uri)
    ensures !HasHost(u) ==> Relative(endpoint, FullUri(endpoint, u)) == Some(u)
    ensures Relative(endpoint, r).Some? ==>
              !HasHost(Relative(endpoint, r).value) && FullUri(endpoint, Relative(endpoint, r).value) == r
  {
    if !HasHost(u) {
      var full := FullUri(endpoint, u);
      assert full.path[..|endpoint.path|] == endpoint.path;
      assert full.path[|endpoint.path|..] == u.path;
    }
    if Relative(endpoint, r).Some? {
      assert endpoint.path + r.path[|endpoint.path|..] == r.path[..|endpoint.path|] + r.path[|endpoint.path|..];
      assert r.path[..|endpoint.path|] + r.path[|endpoint.path|..] == r.path;
    }
  }
}

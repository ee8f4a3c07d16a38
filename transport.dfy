/**
 * What travels over HTTP: the resolved URI, the `Authorization` header and the compressed
 * body of a POST, and what comes back. The exchange itself is network I/O and is a
 * parameter of the connection's operations (a `Server` function from request to response).
 */
module Transport {
  import opened Wrappers
  import opened Bytes
  import opened Paths

  /** A hierarchical URI: scheme, authority and path. */
  datatype Uri = Uri(scheme: string, authority: string, path: string)

  /** The credentials of the service: its base address and the token sent with each request. */
  datatype Auth = Auth(base: Uri, token: string)

  /** A reference that starts with "//": what follows, up to the next '/', is an authority. */
  predicate NetworkPath(ref: string)
  {
    |ref| >= 2 && ref[0] == '/' && ref[1] == '/'
  }

  /**
   * `base.resolve(ref)` of `java.net.URI` for a reference starting with '/', which follows
   * section 5.2 of RFC 2396. The reference is first parsed on its own (`URI.create`):
   * after a leading "//" comes an authority, up to the next '/'. An empty authority is
   * allowed only when something follows it, so "//" alone is refused (`None`, an unchecked
   * `IllegalArgumentException`). A reference with an authority keeps only the base's scheme;
   * one without keeps the base's scheme and authority, and its absolute path replaces the
   * base's path unchanged.
   */
  function Resolve(base: Uri, ref: string): (r: Option<Uri>)
    requires |ref| > 0 && ref[0] == '/'
    ensures r.None? <==> ref == "//"
    ensures r.Some? ==> r.value.scheme == base.scheme
    ensures !NetworkPath(ref) ==> r == Some(Uri(base.scheme, base.authority, ref))
    ensures |ref| > 2 && NetworkPath(ref) && ref[2] == '/' ==> r == Some(Uri(base.scheme, base.authority, ref[2..]))
    ensures |ref| > 2 && NetworkPath(ref) && ref[2] != '/' ==>
      r.Some? && r.value.authority != "" && '/' !in r.value.authority &&
      ref == "//" + r.value.authority + r.value.path &&
      (r.value.path == "" || r.value.path[0] == '/')
  {
    if !NetworkPath(ref) then Some(Uri(base.scheme, base.authority, ref))
    else
      var rest := ref[2..];
      var i := IndexOfSlash(rest);
      if rest == [] then None
      else if i == 0 then Some(Uri(base.scheme, base.authority, rest))
      else
        assert ref == "//" + rest[..i] + rest[i..];
        Some(Uri(base.scheme, rest[..i], rest[i..]))
  }

  /** Conversely, a reference "//" + authority + path names that authority and that path. */
  lemma ResolveNetworkPath(base: Uri, authority: string, path: string)
    requires authority != "" && '/' !in authority
    requires path == "" || path[0] == '/'
    ensures Resolve(base, "//" + authority + path) == Some(Uri(base.scheme, authority, path))
  {
    var ref := "//" + authority + path;
    var rest := authority + path;
    assert ref[2..] == rest;
    assert forall j :: 0 <= j < |authority| ==> rest[j] == authority[j];
    var i := IndexOfSlash(rest);
    if path != "" {
      assert rest[|authority|] == path[0];
    }
    assert i == |authority|;
    assert rest[..|authority|] == authority && rest[|authority|..] == path;
  }

  /** The value of the `Authorization` header. */
  function Authorization(token: string): (h: string)
    ensures |h| == 6 + |token| && h[..6] == "token " && h[6..] == token
  {
    "token " + token
  }

  datatype Request = Request(uri: Uri, authorization: string, body: seq<byte>)

  /**
   * The answer to a request: a status code and the body text, or a fault while connecting
   * or sending (an `IOException`, or an `InterruptedException` of the waiting thread).
   */
  datatype Response = Responded(status: int, body: string) | SendFault
}

/**
 * The configuration a client computes once, at construction: the two
 * endpoint URLs built around "host:port" and the Basic authentication
 * header built from the credentials.
 */
module Endpoints {
  import opened Wrappers

  const SCHEME := "http://"
  const QUERY_PATH := "/db/data/cypher"
  const GRAPH_QUERY_PATH := "/db/data/transaction/commit"
  const BASIC := "Basic "

  /** The URL of the endpoint at `path` on the server `hostPort`. */
  function EndpointUrl(hostPort: string, path: string): string
  {
    SCHEME + hostPort + path
  }

  /** The row-query endpoint. */
  function QueryUrl(hostPort: string): string
  {
    EndpointUrl(hostPort, QUERY_PATH)
  }

  /** The transactional endpoint used for graph queries. */
  function GraphQueryUrl(hostPort: string): string
  {
    EndpointUrl(hostPort, GRAPH_QUERY_PATH)
  }

  /** Reads "host:port" back out of an endpoint URL for `path`. */
  function ParseEndpoint(url: string, path: string): (r: Option<string>)
    ensures r.Some? ==> EndpointUrl(r.value, path) == url
  {
    if |url| >= |SCHEME| + |path| && url[..|SCHEME|] == SCHEME && url[|url| - |path|..] == path
    then
      var hostPort := url[|SCHEME|..|url| - |path|];
      assert url == url[..|SCHEME|] + hostPort + url[|url| - |path|..];
      Some(hostPort)
    else None
  }

  /** A URL parses to `hostPort` exactly when it is the endpoint URL of `hostPort`. */
  lemma ParseEndpointIff(url: string, path: string, hostPort: string)
    ensures ParseEndpoint(url, path) == Some(hostPort) <==> url == EndpointUrl(hostPort, path)
  {
  }

  /** Different servers get different endpoint URLs. */
  lemma EndpointInjective(h1: string, h2: string, path: string)
    requires EndpointUrl(h1, path) == EndpointUrl(h2, path)
    ensures h1 == h2
  {
    ParseEndpointIff(EndpointUrl(h1, path), path, h1);
    ParseEndpointIff(EndpointUrl(h2, path), path, h2);
  }

  /** The row-query URL of one server is never the graph-query URL of any server. */
  lemma EndpointsDistinct(h1: string, h2: string)
    ensures QueryUrl(h1) != GraphQueryUrl(h2)
  {
    var q, g := QueryUrl(h1), GraphQueryUrl(h2);
    assert q[|q| - 1] == 'r';
    assert g[|g| - 1] == 't';
  }

  /** Python's `s[:-1]`: everything but the last character; empty stays empty. */
  function DropLast(s: string): (r: string)
    ensures s == [] ==> r == []
    ensures s != [] ==> r + [s[|s| - 1]] == s
  {
    if s == [] then [] else s[..|s| - 1]
  }

  /** The text that is base64-encoded: "username:password". */
  function Credentials(username: string, password: string): string
  {
    username + ":" + password
  }

  /**
   * The Authorization header: "Basic " and then the encoded credentials
   * with the encoder's last character (its trailing newline) cut off.
   * `encodeBase64` stands for the library encoder.
   */
  function AuthHeader(username: string, password: string, encodeBase64: string -> string): (h: string)
    ensures |h| >= |BASIC| && h[..|BASIC|] == BASIC
    ensures var e := encodeBase64(Credentials(username, password));
      && (e == [] ==> h == BASIC)
      && (e != [] ==> h + [e[|e| - 1]] == BASIC + e)
  {
    BASIC + DropLast(encodeBase64(Credentials(username, password)))
  }

  /** When the encoding ends in a newline, the header is "Basic " and the encoding without it. */
  lemma AuthHeaderDropsNewline(username: string, password: string, encodeBase64: string -> string)
    requires var e := encodeBase64(Credentials(username, password)); e != [] && e[|e| - 1] == '\n'
    ensures AuthHeader(username, password, encodeBase64) + "\n"
      == BASIC + encodeBase64(Credentials(username, password))
  {
  }
}

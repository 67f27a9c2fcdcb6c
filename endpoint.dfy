// WebFSEndpoint: one local port the browser client may find the tray app on.
module Endpoints {
  import opened Text

  datatype EndpointResult = Unknown | Verified | Invalid

  /** A DateTime, in ticks; DateTime.MinValue is tick 0. */
  type DateTime = int
  const MinValue: DateTime := 0

  /** A ushort port number. */
  type Port = x: int | 0 <= x < 0x1_0000

  datatype WebFSEndpoint = WebFSEndpoint(
    result: EndpointResult, port: Port, path: string, lastChecked: DateTime, lastVerified: DateTime)

  /** A new endpoint: every property at its initial value. */
  const DefaultEndpoint := WebFSEndpoint(Unknown, 0, "", MinValue, MinValue)

  const UrlPrefix := "ws://127.0.0.1:"

  /** Url: scheme and loopback address, the port in decimal, then "/" and the path. */
  function Url(e: WebFSEndpoint): (u: string)
    ensures |u| > |UrlPrefix| && u[..|UrlPrefix|] == UrlPrefix
    ensures u[|UrlPrefix|..] == NatToString(e.port) + "/" + e.path
    ensures u[|u| - |e.path|..] == e.path && u[|u| - |e.path| - 1] == '/'
  {
    UrlPrefix + NatToString(e.port) + "/" + e.path
  }

  /** The Url reads only the port and the path. */
  lemma UrlIgnoresStatus(e: WebFSEndpoint, result: EndpointResult, lastChecked: DateTime, lastVerified: DateTime)
    ensures Url(e.(result := result, lastChecked := lastChecked, lastVerified := lastVerified)) == Url(e)
  {
  }

  /** Different (port, path) pairs give different Urls: the Url identifies the endpoint's address. */
  lemma UrlDeterminesAddress(a: WebFSEndpoint, b: WebFSEndpoint)
    requires Url(a) == Url(b)
    ensures a.port == b.port && a.path == b.path
  {
    var d1 := NatToString(a.port);
    var d2 := NatToString(b.port);
    var s1 := Url(a)[|UrlPrefix|..];
    var s2 := Url(b)[|UrlPrefix|..];
    assert s1 == d1 + "/" + a.path && s2 == d2 + "/" + b.path && s1 == s2;
    assert |d1| == |d2|;
    assert d1 == s1[..|d1|] == s2[..|d2|] == d2;
    NatToStringInjective(a.port, b.port);
    assert a.path == s1[|d1| + 1..] == s2[|d2| + 1..] == b.path;
  }

  /** The default endpoint's Url is the bare address on port 0, ending in "/". */
  lemma DefaultEndpointUrl()
    ensures Url(DefaultEndpoint) == "ws://127.0.0.1:0/"
    ensures DefaultEndpoint.lastChecked == MinValue && DefaultEndpoint.lastVerified == MinValue
  {
    assert NatToString(0) == "0";
  }
}

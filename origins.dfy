// The "origin" request header of a browser's WebSocket upgrade, and the part of
// System.Uri that the host uses from it.
module Origins {
  import opened Wrappers
  import opened Text

  /** A parsed origin URI; `port` is None when the scheme's default port is used. */
  datatype Origin = Origin(scheme: string, host: string, port: Option<nat>)

  /** `uri.GetLeftPart(UriPartial.Authority)`: scheme, "://", host and a non-default port. */
  function Authority(o: Origin): (url: string)
    ensures |url| >= |o.scheme| + 3 + |o.host|
    ensures url[..|o.scheme|] == o.scheme
    ensures url[|o.scheme|..|o.scheme| + 3] == "://"
    ensures url[|o.scheme| + 3..|o.scheme| + 3 + |o.host|] == o.host
    ensures o.port.None? ==> |url| == |o.scheme| + 3 + |o.host|
    ensures o.port.Some? ==> url[|o.scheme| + 3 + |o.host|..] == ":" + NatToString(o.port.value)
  {
    o.scheme + "://" + o.host + (match o.port case None => "" case Some(p) => ":" + NatToString(p))
  }

  /**
   * The origin a request carries: none when the header is missing or empty,
   * otherwise whatever `new Uri(header)` makes of it (`parse` stands for the
   * URI parser; None means it threw).
   */
  function RequestOrigin(header: Option<string>, parse: string -> Option<Origin>): (o: Option<Origin>)
    ensures header.None? ==> o.None?
    ensures header == Some("") ==> o.None?
    ensures header.Some? && header.value != "" ==> o == parse(header.value)
  {
    match header
    case None => None
    case Some(h) => if h == "" then None else parse(h)
  }
}

// WebSocketServer: the host's HTTP listener. It turns its constructor
// arguments into listen addresses, accepts WebSocket upgrade requests into
// WebSocketConnections kept in a table keyed by connection id, and drops a
// connection from the table when it reports that it has closed.
module SocketServer {
  import opened Wrappers
  import opened Sockets
  import Text
  import Origins
  import Framing

  type UShort = x: int | 0 <= x < 0x1_0000

  const DefaultAddress := "http://localhost:80/"
  const DefaultHost := "127.0.0.1"
  const DefaultPort: UShort := 80

  /** The listen address for one host and port. */
  function Address(host: string, port: UShort): (a: string)
    ensures |a| > 7 + |host| + 1 && a[..7 + |host| + 1] == "http://" + host + ":"
    ensures a[|a| - 1] == '/'
    ensures a[7 + |host| + 1..|a| - 1] == Text.NatToString(port)
  {
    "http://" + host + ":" + Text.NatToString(port) + "/"
  }

  /** Two ports on one host never share an address. */
  lemma AddressDeterminesPort(host: string, p: UShort, q: UShort)
    requires Address(host, p) == Address(host, q)
    ensures p == q
  {
    var n := 7 + |host| + 1;
    var dp := Text.NatToString(p);
    var dq := Text.NatToString(q);
    assert Address(host, p)[n..] == dp + "/";
    assert Address(host, q)[n..] == dq + "/";
    assert dp == (dp + "/")[..|dp|];
    assert dq == (dq + "/")[..|dq|];
    Text.NatToStringInjective(p, q);
  }

  /** The list constructor: a missing or empty list becomes the single default address. */
  function AddressesFromList(addresses: Option<seq<string>>): (r: seq<string>)
    ensures addresses.None? || addresses.value == [] ==> r == [DefaultAddress]
    ensures addresses.Some? && addresses.value != [] ==> r == addresses.value
  {
    if addresses.None? || addresses.value == [] then [DefaultAddress] else addresses.value
  }

  /**
   * The port constructors' loop: every port replaces the whole list, so only
   * the last port's address survives; a missing array stands for port 80 and
   * an empty array leaves the list empty.
   */
  method AddressesFromPorts(host: string, ports: Option<seq<UShort>>) returns (r: seq<string>)
    ensures ports.None? ==> r == [Address(host, DefaultPort)]
    ensures ports.Some? && ports.value == [] ==> r == []
    ensures ports.Some? && ports.value != [] ==> r == [Address(host, ports.value[|ports.value| - 1])]
  {
    var ps := if ports.None? then [DefaultPort] else ports.value;
    r := [];
    for i := 0 to |ps|
      invariant i == 0 ==> r == []
      invariant i > 0 ==> r == [Address(host, ps[i - 1])]
    {
      r := [Address(host, ps[i])];
    }
  }

  class WebSocketServer {
    var listenAddresses: seq<string>
    /** httpListener.IsListening and the prefixes it was given. */
    var isListening: bool
    var prefixes: seq<string>
    /** Whether the accept loop has been asked to stop. */
    var acceptCancelled: bool
    /** The connection table, keyed by ConnectionId. */
    var connections: map<string, Framing.WebSocketConnection>
    /** The OnConnected and OnDisconnected notifications raised so far, in order. */
    var connectedEvents: seq<Framing.WebSocketConnection>
    var disconnectedEvents: seq<Framing.WebSocketConnection>

    constructor FromList(addresses: Option<seq<string>>)
      ensures listenAddresses == AddressesFromList(addresses)
      ensures !isListening && prefixes == [] && connections == map[]
      ensures connectedEvents == [] && disconnectedEvents == [] && !acceptCancelled
    {
      listenAddresses := AddressesFromList(addresses);
      isListening := false;
      prefixes := [];
      acceptCancelled := false;
      connections := map[];
      connectedEvents := [];
      disconnectedEvents := [];
    }

    /** The constructors taking ports, with the host given or defaulting to 127.0.0.1. */
    constructor FromPorts(host: Option<string>, ports: Option<seq<UShort>>)
      ensures var h := if host.Some? then host.value else DefaultHost;
        (ports.None? ==> listenAddresses == [Address(h, DefaultPort)]) &&
        (ports.Some? && ports.value == [] ==> listenAddresses == []) &&
        (ports.Some? && ports.value != [] ==> listenAddresses == [Address(h, ports.value[|ports.value| - 1])])
      ensures !isListening && prefixes == [] && connections == map[]
      ensures connectedEvents == [] && disconnectedEvents == [] && !acceptCancelled
    {
      var h := if host.Some? then host.value else DefaultHost;
      var addresses := AddressesFromPorts(h, ports);
      listenAddresses := addresses;
      isListening := false;
      prefixes := [];
      acceptCancelled := false;
      connections := map[];
      connectedEvents := [];
      disconnectedEvents := [];
    }

    /**
     * StartListening: true at once when already listening. Otherwise the
     * prefixes are cleared and every address added; an address the listener
     * refuses (`accepts` is false) or a failing Start makes it return false.
     * On success the accept loop starts.
     */
    method StartListening(accepts: string -> bool, startSucceeds: bool) returns (ok: bool)
      modifies this
      ensures old(isListening) ==> ok && prefixes == old(prefixes) && isListening && acceptCancelled == old(acceptCancelled)
      ensures !old(isListening) ==>
        |prefixes| <= |listenAddresses| && prefixes == listenAddresses[..|prefixes|] &&
        (forall j :: 0 <= j < |prefixes| ==> accepts(prefixes[j])) &&
        (|prefixes| < |listenAddresses| ==> !accepts(listenAddresses[|prefixes|]))
      ensures !old(isListening) ==>
        (ok <==> (forall j :: 0 <= j < |listenAddresses| ==> accepts(listenAddresses[j])) && startSucceeds)
      ensures !old(isListening) ==> isListening == ok && (ok ==> !acceptCancelled)
      ensures !old(isListening) && !ok ==> acceptCancelled == old(acceptCancelled)
      ensures listenAddresses == old(listenAddresses) && connections == old(connections)
      ensures connectedEvents == old(connectedEvents) && disconnectedEvents == old(disconnectedEvents)
    {
      if isListening {
        return true;
      }
      prefixes := [];
      var i := 0;
      while i < |listenAddresses|
        invariant 0 <= i <= |listenAddresses|
        invariant prefixes == listenAddresses[..i]
        invariant forall j :: 0 <= j < i ==> accepts(listenAddresses[j])
        invariant !isListening && listenAddresses == old(listenAddresses) && connections == old(connections)
        invariant connectedEvents == old(connectedEvents) && disconnectedEvents == old(disconnectedEvents)
        invariant acceptCancelled == old(acceptCancelled)
      {
        if !accepts(listenAddresses[i]) {
          return false;
        }
        prefixes := prefixes + [listenAddresses[i]];
        i := i + 1;
      }
      if !startSucceeds {
        return false;
      }
      isListening := true;
      acceptCancelled := false;
      ok := true;
    }

    /** StopListening: only a listening server stops, and its accept loop is cancelled. */
    method StopListening()
      modifies this
      ensures !old(isListening) ==> acceptCancelled == old(acceptCancelled)
      ensures old(isListening) ==> acceptCancelled
      ensures !isListening
      ensures prefixes == old(prefixes) && listenAddresses == old(listenAddresses) && connections == old(connections)
      ensures connectedEvents == old(connectedEvents) && disconnectedEvents == old(disconnectedEvents)
    {
      if !isListening {
        return;
      }
      isListening := false;
      acceptCancelled := true;
    }

    /**
     * One pass of the accept loop for one incoming HTTP request. A
     * connection joins the table only when the request is a WebSocket
     * request, the OnConnectRequest handlers did not cancel it, the accepted
     * socket is Open, the origin is valid and its id is not already in the
     * table (Dictionary.Add throws on a duplicate, and the loop swallows it).
     * OnConnected is raised only when the connection became ready within
     * five seconds; a late connection stays in the table.
     */
    method HandleRequest(isWebSocketRequest: bool, cancelConnection: bool, ws: WebSocket,
                         connectionId: string, freshId: string,
                         originHeader: Option<string>, parse: string -> Option<Origins.Origin>,
                         remoteAddress: string, readyInTime: bool)
      returns (added: Option<Framing.WebSocketConnection>)
      modifies this
      ensures added.None? ==> connections == old(connections) && connectedEvents == old(connectedEvents)
      ensures added.Some? <==>
        isWebSocketRequest && !cancelConnection && ws.state == Open &&
        Origins.RequestOrigin(originHeader, parse).Some? &&
        Framing.WebSocketConnection.ChooseId(Some(connectionId), freshId) !in old(connections)
      ensures added.Some? ==>
        fresh(added.value) && added.value.socket == ws &&
        added.value.connectionId == Framing.WebSocketConnection.ChooseId(Some(connectionId), freshId) &&
        connections == old(connections)[added.value.connectionId := added.value] &&
        connectedEvents == old(connectedEvents) + (if readyInTime then [added.value] else [])
      ensures disconnectedEvents == old(disconnectedEvents)
      ensures listenAddresses == old(listenAddresses) && prefixes == old(prefixes) && isListening == old(isListening)
      ensures acceptCancelled == old(acceptCancelled)
    {
      added := None;
      if !isWebSocketRequest || cancelConnection || ws.state != Open {
        return;
      }
      var conn := Framing.WebSocketConnection.Accept(ws, remoteAddress, Some(connectionId), freshId, originHeader, parse, true);
      if conn.Err? {
        return;
      }
      var c := conn.value;
      if c.connectionId in connections {
        return;
      }
      connections := connections[c.connectionId := c];
      added := Some(c);
      if readyInTime {
        connectedEvents := connectedEvents + [c];
      }
    }

    /**
     * Conn_OnStateChanged: a Closed connection leaves the table if its id is
     * there, and OnDisconnected is raised for every Closed notification;
     * other notifications change nothing.
     */
    method ConnectionStateChanged(conn: Framing.WebSocketConnection)
      modifies this
      ensures conn.State() == Closed ==> connections == old(connections) - {conn.connectionId}
      ensures conn.State() == Closed ==> disconnectedEvents == old(disconnectedEvents) + [conn]
      ensures conn.State() != Closed ==> connections == old(connections) && disconnectedEvents == old(disconnectedEvents)
      ensures forall id :: id in connections ==> id in old(connections) && connections[id] == old(connections)[id]
      ensures connectedEvents == old(connectedEvents)
      ensures listenAddresses == old(listenAddresses) && prefixes == old(prefixes) && isListening == old(isListening)
      ensures acceptCancelled == old(acceptCancelled)
    {
      if conn.State() == Closed {
        if conn.connectionId in connections {
          connections := connections - {conn.connectionId};
        }
        disconnectedEvents := disconnectedEvents + [conn];
      }
    }

    /** Connections: a snapshot of the table's values, one per entry. */
    method Connections() returns (list: seq<Framing.WebSocketConnection>)
      ensures |list| == |connections|
      ensures forall j :: 0 <= j < |list| ==> list[j] in connections.Values
      ensures forall id :: id in connections ==> connections[id] in list
    {
      list := [];
      var keys := connections.Keys;
      while keys != {}
        invariant keys <= connections.Keys
        invariant |list| + |keys| == |connections|
        invariant forall j :: 0 <= j < |list| ==> list[j] in connections.Values
        invariant forall id :: id in connections && id !in keys ==> connections[id] in list
        decreases |keys|
      {
        var id :| id in keys;
        list := list + [connections[id]];
        keys := keys - {id};
      }
    }
  }
}

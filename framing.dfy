// WebSocketConnection: one WebSocket carrying MessagePack-encoded calls. The
// receive loop reassembles fragmented messages and hands each non-empty,
// decodable, non-empty argument list to the dispatcher; sends go through a
// one-permit gate and either one final frame (SendBytes) or a fragmented
// message written through a WritableWebSocketStream (SendStream).
module Framing {
  import opened Wrappers
  import opened Sockets
  import WritableStreams
  import Origins
  import ElementLists

  const InvalidOrigin := "Invalid origin"
  const StreamNotConnected := "WebSocket not connected"
  const BytesNotConnected := "Websocket not connected"

  /** What one ReceiveAsync call gives: a chunk of a message, or an exception. */
  datatype Received = Chunk(data: seq<byte>, endOfMessage: bool, messageType: MessageType) | Failure

  /**
   * The outcome of the inner do/while: the bytes gathered, the last chunk
   * received, whether a chunk with EndOfMessage was reached, and where the
   * next read starts.
   */
  datatype MessageRead = MessageRead(bytes: seq<byte>, last: Option<Received>, complete: bool, next: nat)

  /**
   * Reading one message from position i onwards, with `acc` gathered and
   * `last` received so far. Running out of input stands for the socket
   * leaving the Open state, where ReceiveAsync throws.
   */
  function ReadMessage(items: seq<Received>, i: nat, acc: seq<byte>, last: Option<Received>): (r: MessageRead)
    requires i <= |items|
    ensures i <= r.next <= |items|
    ensures i < |items| ==> i < r.next
    ensures r.complete ==> r.last.Some? && r.last.value.Chunk? && r.last.value.endOfMessage
    decreases |items| - i
  {
    if i == |items| then MessageRead(acc, last, false, i)
    else match items[i]
      case Failure => MessageRead(acc, last, false, i + 1)
      case Chunk(d, eom, _) =>
        if eom then MessageRead(acc + d, Some(items[i]), true, i + 1)
        else ReadMessage(items, i + 1, acc + d, Some(items[i]))
  }

  /** The bytes the chunks of a list carry, in order. */
  function ChunkBytes(items: seq<Received>): seq<byte>
  {
    if items == [] then [] else (if items[0].Chunk? then items[0].data else []) + ChunkBytes(items[1..])
  }

  /**
   * The dispatch guard: an empty message is dropped, and so is one that does
   * not decode or decodes to an empty list.
   */
  function Dispatched(reader: ElementLists.MessagePackReader, bytes: seq<byte>): (r: Option<seq<ElementLists.Element>>)
    ensures r.Some? <==>
      |bytes| > 0 && ElementLists.ElementsOf(reader, bytes).Some? && |ElementLists.ElementsOf(reader, bytes).value| > 0
    ensures r.Some? ==> r == ElementLists.ElementsOf(reader, bytes)
  {
    if |bytes| == 0 then None
    else match ElementLists.ElementsOf(reader, bytes)
      case None => None
      case Some(args) => if |args| > 0 then Some(args) else None
  }

  /** The receive loop stops after a message whose last chunk is a Close frame. */
  predicate EndsListening(m: MessageRead)
  {
    m.last.Some? && m.last.value.Chunk? && m.last.value.messageType == Close
  }

  /**
   * The inner receive loop: chunks are gathered until one carries
   * EndOfMessage, the receive fails, or the input ends.
   */
  method ReceiveMessage(items: seq<Received>, i: nat) returns (m: MessageRead)
    requires i <= |items|
    ensures m == ReadMessage(items, i, [], None)
  {
    var ms: seq<byte> := [];
    var last: Option<Received> := None;
    var complete := false;
    var k := i;
    var done := false;
    while !done
      invariant i <= k <= |items|
      invariant !done ==> !complete && ReadMessage(items, k, ms, last) == ReadMessage(items, i, [], None)
      invariant done ==> MessageRead(ms, last, complete, k) == ReadMessage(items, i, [], None)
      decreases |items| - k, if done then 0 else 1
    {
      if k == |items| {
        done := true;
      } else {
        var item := items[k];
        k := k + 1;
        match item
        case Failure =>
          done := true;
        case Chunk(d, eom, _) =>
          last := Some(item);
          ms := ms + d;
          if eom {
            complete := true;
            done := true;
          }
      }
    }
    m := MessageRead(ms, last, complete, k);
  }

  /** One message read from position i: what it dispatches, then the calls after it unless it closed the loop. */
  lemma CallsStep(reader: ElementLists.MessagePackReader, items: seq<Received>, i: nat, here: seq<seq<ElementLists.Element>>)
    requires i < |items|
    requires var m := ReadMessage(items, i, [], None);
      here == if m.complete && Dispatched(reader, m.bytes).Some? then [Dispatched(reader, m.bytes).value] else []
    ensures var m := ReadMessage(items, i, [], None);
      Calls(reader, items, i) == if EndsListening(m) then here else here + Calls(reader, items, m.next)
  {
  }

  /** The argument lists the receive loop hands to HandleCall, reading from position i. */
  function Calls(reader: ElementLists.MessagePackReader, items: seq<Received>, i: nat): seq<seq<ElementLists.Element>>
    requires i <= |items|
    decreases |items| - i
  {
    if i == |items| then []
    else
      var m := ReadMessage(items, i, [], None);
      var here := if m.complete && Dispatched(reader, m.bytes).Some? then [Dispatched(reader, m.bytes).value] else [];
      if EndsListening(m) then here else here + Calls(reader, items, m.next)
  }

  /**
   * One message is the concatenation, in order, of the bytes of the chunks up
   * to and including the first one with EndOfMessage.
   */
  lemma {:induction false} ReadChunks(items: seq<Received>, i: nat, j: nat, acc: seq<byte>, last: Option<Received>)
    requires i < j <= |items|
    requires forall k :: i <= k < j ==> items[k].Chunk?
    requires forall k :: i <= k < j - 1 ==> !items[k].endOfMessage
    requires items[j - 1].endOfMessage
    ensures ReadMessage(items, i, acc, last) == MessageRead(acc + ChunkBytes(items[i..j]), Some(items[j - 1]), true, j)
    decreases j - i
  {
    var d := items[i].data;
    assert items[i..j][0] == items[i];
    assert items[i..j][1..] == items[i + 1..j];
    if i == j - 1 {
      assert items[i + 1..j] == [];
    } else {
      ReadChunks(items, i + 1, j, acc + d, Some(items[i]));
      assert acc + d + ChunkBytes(items[i + 1..j]) == acc + (d + ChunkBytes(items[i + 1..j]));
    }
  }

  /** Frames as the peer's ReceiveAsync reports them. */
  function AsReceived(fs: seq<Frame>): (rs: seq<Received>)
    ensures |rs| == |fs|
    ensures forall k :: 0 <= k < |fs| ==> rs[k] == Chunk(fs[k].data, fs[k].endOfMessage, fs[k].messageType)
  {
    if fs == [] then [] else [Chunk(fs[0].data, fs[0].endOfMessage, fs[0].messageType)] + AsReceived(fs[1..])
  }

  lemma {:induction false} ChunkBytesOfFrames(fs: seq<Frame>)
    ensures ChunkBytes(AsReceived(fs)) == WritableStreams.Payload(fs)
  {
    if fs != [] {
      assert AsReceived(fs)[1..] == AsReceived(fs[1..]);
      ChunkBytesOfFrames(fs[1..]);
    }
  }

  /**
   * Round trip: the frames one SendStream puts on the wire reassemble, on the
   * receiving side, into exactly the bytes the serializer wrote, and the
   * receive loop hands that message to HandleCall when the guard lets it.
   */
  lemma SentMessageReassembles(reader: ElementLists.MessagePackReader, writes: seq<seq<byte>>)
    requires writes != []
    ensures ReadMessage(AsReceived(WritableStreams.MessageFrames(writes)), 0, [], None).bytes == WritableStreams.Concat(writes)
    ensures ReadMessage(AsReceived(WritableStreams.MessageFrames(writes)), 0, [], None).complete
    ensures Calls(reader, AsReceived(WritableStreams.MessageFrames(writes)), 0) ==
      (if Dispatched(reader, WritableStreams.Concat(writes)).Some? then [Dispatched(reader, WritableStreams.Concat(writes)).value] else [])
  {
    var fs := WritableStreams.MessageFrames(writes);
    var items := AsReceived(fs);
    WritableStreams.MessageFramesFragmented(writes);
    ReadChunks(items, 0, |items|, [], None);
    assert items[0..|items|] == items;
    ChunkBytesOfFrames(fs);
  }

  class WebSocketConnection {
    var socket: WebSocket?
    const connectionId: string
    const remoteAddress: string
    const requestOrigin: Option<Origins.Origin>
    /** Whether a receive loop's cancellation source is held (`_cancellationTokenSourceLocal != null`). */
    var listening: bool
    /** Whether that receive loop has been asked to stop. */
    var listenerCancelled: bool
    /** How many OnStateChanged notifications have been raised. */
    var stateChanges: nat
    /** The send gate: how many times it has been entered and left. */
    var acquired: nat
    var released: nat

    /** State: a connection without a socket reports Closed. */
    function State(): (s: SocketState)
      reads this, socket
      ensures socket == null ==> s == Closed
      ensures socket != null ==> s == socket.state
    {
      if socket == null then Closed else socket.state
    }

    function IsConnected(): (b: bool)
      reads this, socket
      ensures b <==> socket != null && socket.state == Open
    {
      socket != null && socket.state == Open
    }

    function IsDisconnecting(): (b: bool)
      reads this, socket
      ensures b <==> socket != null && (socket.state == CloseReceived || socket.state == CloseSent)
    {
      socket != null && (socket.state == CloseReceived || socket.state == CloseSent)
    }

    /** The connection's id: the one given when it is non-empty, a fresh GUID otherwise. */
    static function ChooseId(connectionId: Option<string>, freshId: string): (id: string)
      ensures connectionId.Some? && connectionId.value != "" ==> id == connectionId.value
      ensures connectionId.None? || connectionId.value == "" ==> id == freshId
    {
      if connectionId.Some? && connectionId.value != "" then connectionId.value else freshId
    }

    /**
     * The client-side constructor: adopts the socket and starts the receive
     * loop when asked to and the socket is open.
     */
    constructor (ws: WebSocket, remoteAddress: string, connectionId: Option<string>, freshId: string,
                 origin: Option<Origins.Origin>, startDataListener: bool)
      ensures socket == ws && this.remoteAddress == remoteAddress && requestOrigin == origin
      ensures this.connectionId == ChooseId(connectionId, freshId)
      ensures listening == (startDataListener && ws.state == Open) && !listenerCancelled
      ensures stateChanges == 0 && acquired == 0 && released == 0
    {
      socket := ws;
      this.connectionId := ChooseId(connectionId, freshId);
      this.remoteAddress := remoteAddress;
      requestOrigin := origin;
      listening := false;
      listenerCancelled := false;
      stateChanges := 0;
      acquired := 0;
      released := 0;
      new;
      if startDataListener && ws.state == Open {
        var _ := Listen(null);
      }
    }

    /**
     * The server-side constructor: the request must carry an origin header
     * that parses as a URI, otherwise it throws "Invalid origin".
     */
    static method Accept(ws: WebSocket, remoteAddress: string, connectionId: Option<string>, freshId: string,
                         originHeader: Option<string>, parse: string -> Option<Origins.Origin>,
                         startDataListener: bool)
      returns (r: Result<WebSocketConnection, string>)
      ensures r.Err? <==> Origins.RequestOrigin(originHeader, parse).None?
      ensures r.Err? ==> r.error == InvalidOrigin
      ensures r.Ok? ==> fresh(r.value) && r.value.socket == ws && r.value.requestOrigin == Origins.RequestOrigin(originHeader, parse)
      ensures r.Ok? ==> r.value.connectionId == ChooseId(connectionId, freshId)
      ensures r.Ok? ==> r.value.listening == (startDataListener && ws.state == Open)
    {
      var origin := Origins.RequestOrigin(originHeader, parse);
      if origin.None? {
        return Err(InvalidOrigin);
      }
      var c := new WebSocketConnection(ws, remoteAddress, connectionId, freshId, origin, startDataListener);
      r := Ok(c);
    }

    /**
     * Listen: a different socket is refused while the current one is open;
     * otherwise it is adopted. The receive loop starts only on an open socket.
     */
    method Listen(ws: WebSocket?) returns (ok: bool)
      modifies this
      ensures ws != null && old(socket) != ws && old(socket) != null && old(socket.state) == Open ==>
        !ok && socket == old(socket) && listening == old(listening) && listenerCancelled == old(listenerCancelled)
      ensures !(ws != null && old(socket) != ws && old(socket) != null && old(socket.state) == Open) ==>
        socket == (if ws != null then ws else old(socket)) &&
        (ok <==> socket != null && socket.state == Open)
      ensures ok ==> listening && !listenerCancelled
      ensures !ok ==> listening == old(listening) && listenerCancelled == old(listenerCancelled)
      ensures stateChanges == old(stateChanges) && acquired == old(acquired) && released == old(released)
    {
      if ws != null && socket != ws {
        if socket != null && socket.state == Open {
          return false;
        }
        socket := ws;
      }
      if socket == null || socket.state != Open {
        return false;
      }
      listening := true;
      listenerCancelled := false;
      ok := true;
    }

    /**
     * The receive loop started by Listen, run over everything ReceiveAsync
     * yields until the socket stops being open or the loop is cancelled.
     * It returns the argument lists handed to HandleCall, in order; on exit
     * the socket is dropped and a state change is raised.
     */
    method ReceiveLoop(reader: ElementLists.MessagePackReader, items: seq<Received>) returns (calls: seq<seq<ElementLists.Element>>)
      modifies this
      ensures calls == Calls(reader, items, 0)
      ensures socket == null && State() == Closed
      ensures stateChanges == old(stateChanges) + 1
      ensures listening == old(listening) && listenerCancelled == old(listenerCancelled)
      ensures acquired == old(acquired) && released == old(released)
    {
      calls := [];
      var i := 0;
      while i < |items|
        invariant 0 <= i <= |items|
        invariant calls + Calls(reader, items, i) == Calls(reader, items, 0)
        invariant unchanged(this)
        decreases |items| - i
      {
        var m := ReceiveMessage(items, i);
        var here: seq<seq<ElementLists.Element>> := [];
        if m.complete {
          var args := Dispatched(reader, m.bytes);
          if args.Some? {
            here := [args.value];
          }
        }
        CallsStep(reader, items, i, here);
        if m.last.Some? && m.last.value.Chunk? && m.last.value.messageType == Close {
          calls := calls + here;
          assert calls == Calls(reader, items, 0);
          break;
        }
        assert (calls + here) + Calls(reader, items, m.next) == calls + (here + Calls(reader, items, m.next));
        calls := calls + here;
        i := m.next;
      }
      assert Calls(reader, items, |items|) == [];
      socket := null;
      stateChanges := stateChanges + 1;
    }

    /**
     * Disconnect: nothing happens while the connection is closing, when it is
     * not connected, or when no receive loop is held; otherwise the socket is
     * closed, the loop cancelled, the socket dropped and a state change raised.
     */
    method Disconnect()
      modifies this, socket
      ensures old(IsDisconnecting()) || !old(IsConnected()) || !old(listening) ==>
        socket == old(socket) && listening == old(listening) && listenerCancelled == old(listenerCancelled) &&
        stateChanges == old(stateChanges) && (old(socket) != null ==> old(socket).state == old(socket.state))
      ensures !old(IsDisconnecting()) && old(IsConnected()) && old(listening) ==>
        socket == null && old(socket).state == Closed && !listening && listenerCancelled &&
        stateChanges == old(stateChanges) + 1
      ensures old(socket) != null ==> old(socket).sent == old(socket.sent)
      ensures acquired == old(acquired) && released == old(released)
    {
      if IsDisconnecting() || !IsConnected() || socket == null {
        return;
      }
      if !listening {
        return;
      }
      var s := socket;
      var _ := s.CloseAsync();
      listenerCancelled := true;
      listening := false;
      socket := null;
      stateChanges := stateChanges + 1;
    }

    /**
     * SendStream: refused unless the socket is open; otherwise, holding the
     * send gate, the serializer's writes go through a fresh writable stream
     * and EndMessage closes the message. The gate is left on every path that
     * entered it. `chunks` is what the serializer writes, None when it throws
     * before writing.
     */
    method SendStream(chunks: Option<seq<seq<byte>>>) returns (r: Result<Unit, string>)
      modifies this, socket
      ensures socket == old(socket) && listening == old(listening) && listenerCancelled == old(listenerCancelled)
      ensures stateChanges == old(stateChanges)
      ensures socket != null ==> socket.state == old(socket.state)
      ensures !old(IsConnected()) ==>
        r == Err(StreamNotConnected) && acquired == old(acquired) && released == old(released) &&
        (socket != null ==> socket.sent == old(socket.sent))
      ensures old(IsConnected()) ==> acquired == old(acquired) + 1 && released == old(released) + 1
      ensures old(IsConnected()) && chunks.None? ==> r.Err? && socket.sent == old(socket.sent)
      ensures old(IsConnected()) && chunks.Some? ==>
        r == Ok(Unit) && socket.sent == old(socket.sent) + WritableStreams.MessageFrames(chunks.value)
    {
      if socket == null || socket.state != Open {
        return Err(StreamNotConnected);
      }
      acquired := acquired + 1;
      var s := socket;
      if chunks.None? {
        released := released + 1;
        return Err(MessagePackFailure);
      }
      var writes := chunks.value;
      var stream := new WritableStreams.WritableWebSocketStream(s);
      var i := 0;
      while i < |writes|
        invariant 0 <= i <= |writes|
        invariant stream.socket == s && stream.sendCount == i && s.state == Open
        invariant s.sent == old(s.sent) + WritableStreams.DataFrames(writes[..i])
        modifies stream, s
      {
        var w := stream.WriteAsync(writes[i]);
        assert writes[..i + 1] == writes[..i] + [writes[i]];
        WritableStreams.DataFramesAppend(writes[..i], writes[i]);
        i := i + 1;
      }
      assert writes[..|writes|] == writes;
      var e := stream.EndMessage();
      released := released + 1;
      r := Ok(Unit);
    }

    /**
     * SendBytes: refused unless the socket is open; otherwise, holding the
     * send gate, the bytes go out as one final binary frame.
     */
    method SendBytes(data: seq<byte>) returns (r: Result<Unit, string>)
      modifies this, socket
      ensures socket == old(socket) && listening == old(listening) && listenerCancelled == old(listenerCancelled)
      ensures stateChanges == old(stateChanges)
      ensures socket != null ==> socket.state == old(socket.state)
      ensures !old(IsConnected()) ==>
        r == Err(BytesNotConnected) && acquired == old(acquired) && released == old(released) &&
        (socket != null ==> socket.sent == old(socket.sent))
      ensures old(IsConnected()) ==>
        r == Ok(Unit) && acquired == old(acquired) + 1 && released == old(released) + 1 &&
        socket.sent == old(socket.sent) + [Frame(data, Binary, true)]
    {
      if socket == null || socket.state != Open {
        return Err(BytesNotConnected);
      }
      acquired := acquired + 1;
      var s := socket;
      var _ := s.SendAsync(data, Binary, true);
      released := released + 1;
      r := Ok(Unit);
    }

    /** Send: serializes, sends with SendBytes, and reports success instead of throwing. */
    method Send(serialized: Option<seq<byte>>) returns (ok: bool)
      modifies this, socket
      ensures ok <==> serialized.Some? && old(IsConnected())
      ensures socket == old(socket) && stateChanges == old(stateChanges)
      ensures acquired - released == old(acquired) - old(released)
      ensures ok ==> socket.sent == old(socket.sent) + [Frame(serialized.value, Binary, true)]
      ensures !ok && socket != null ==> socket.sent == old(socket.sent)
    {
      if serialized.None? {
        return false;
      }
      var r := SendBytes(serialized.value);
      ok := r.Ok?;
    }

    /** SendAsync: sends with SendStream and reports success instead of throwing. */
    method SendAsync(chunks: Option<seq<seq<byte>>>) returns (ok: bool)
      modifies this, socket
      ensures ok <==> chunks.Some? && old(IsConnected())
      ensures socket == old(socket) && stateChanges == old(stateChanges)
      ensures acquired - released == old(acquired) - old(released)
      ensures ok ==> socket.sent == old(socket.sent) + WritableStreams.MessageFrames(chunks.value)
      ensures !ok && socket != null ==> socket.sent == old(socket.sent)
    {
      var r := SendStream(chunks);
      ok := r.Ok?;
    }

    /** SendCall: fire-and-forget; it has no failure to report. */
    method SendCall(chunks: Option<seq<seq<byte>>>)
      modifies this, socket
      ensures socket == old(socket) && stateChanges == old(stateChanges)
      ensures acquired - released == old(acquired) - old(released)
      ensures chunks.Some? && old(IsConnected()) ==> socket.sent == old(socket.sent) + WritableStreams.MessageFrames(chunks.value)
      ensures !(chunks.Some? && old(IsConnected())) && socket != null ==> socket.sent == old(socket.sent)
    {
      var _ := SendAsync(chunks);
    }
  }

  const MessagePackFailure := "MessagePackSerializationException"
}

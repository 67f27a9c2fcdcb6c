// WritableWebSocketStream: a write-only stream that turns every write into one
// non-final binary frame and closes the message with one empty final frame
// (message fragmentation as in section 5.4 of RFC 6455).
module WritableStreams {
  import opened Wrappers
  import opened Sockets

  const NotImplementedException := "NotImplementedException"

  /** The frame WriteAsync sends for one buffer. */
  function DataFrame(buffer: seq<byte>): Frame
  {
    Frame(buffer, Binary, false)
  }

  /** The frame EndMessage sends. */
  const EndFrame := Frame([], Binary, true)

  /** The frames of a series of WriteAsync calls, one per buffer, in order. */
  function DataFrames(writes: seq<seq<byte>>): (fs: seq<Frame>)
    ensures |fs| == |writes|
  {
    if writes == [] then [] else [DataFrame(writes[0])] + DataFrames(writes[1..])
  }

  /** The frames of a series of writes followed by EndMessage on a fresh stream. */
  function MessageFrames(writes: seq<seq<byte>>): seq<Frame>
  {
    if writes == [] then [] else DataFrames(writes) + [EndFrame]
  }

  /** All the bytes of a list of buffers, in order. */
  function Concat(parts: seq<seq<byte>>): seq<byte>
  {
    if parts == [] then [] else parts[0] + Concat(parts[1..])
  }

  /** The payload of a list of frames, in order. */
  function Payload(fs: seq<Frame>): seq<byte>
  {
    if fs == [] then [] else fs[0].data + Payload(fs[1..])
  }

  /**
   * One fragmented message: at least one frame, all binary, the last one
   * final and every other one not.
   */
  predicate FragmentedMessage(fs: seq<Frame>)
  {
    |fs| > 0 && fs[|fs| - 1].endOfMessage &&
    (forall i :: 0 <= i < |fs| ==> fs[i].messageType == Binary) &&
    (forall i :: 0 <= i < |fs| - 1 ==> !fs[i].endOfMessage)
  }

  /** Writing one more buffer appends one data frame. */
  lemma {:induction false} DataFramesAppend(writes: seq<seq<byte>>, buffer: seq<byte>)
    ensures DataFrames(writes + [buffer]) == DataFrames(writes) + [DataFrame(buffer)]
  {
    if writes != [] {
      assert (writes + [buffer])[1..] == writes[1..] + [buffer];
      DataFramesAppend(writes[1..], buffer);
    }
  }

  /** The i-th data frame carries the i-th buffer, and together they carry all the bytes. */
  lemma {:induction false} DataFramesShape(writes: seq<seq<byte>>)
    ensures forall i :: 0 <= i < |writes| ==> DataFrames(writes)[i] == DataFrame(writes[i])
    ensures Payload(DataFrames(writes)) == Concat(writes)
  {
    if writes != [] {
      var tail := writes[1..];
      DataFramesShape(tail);
      var fs := DataFrames(writes);
      assert fs[1..] == DataFrames(tail);
      forall i | 0 < i < |writes| ensures fs[i] == DataFrame(writes[i]) {
        assert fs[i] == DataFrames(tail)[i - 1];
        assert writes[i] == tail[i - 1];
      }
    }
  }

  /** The payload of two lists of frames is the payloads of each, in order. */
  lemma {:induction false} PayloadAppend(a: seq<Frame>, b: seq<Frame>)
    ensures Payload(a + b) == Payload(a) + Payload(b)
  {
    if a == [] {
      assert a + b == b;
    } else {
      assert (a + b)[0] == a[0];
      assert (a + b)[1..] == a[1..] + b;
      PayloadAppend(a[1..], b);
    }
  }

  /**
   * The trace of k writes and EndMessage is k non-final frames carrying the
   * buffers in order and then one empty final frame; for k = 0 nothing is
   * sent. The payload of the message is the writes' bytes, in order.
   */
  lemma MessageFramesFragmented(writes: seq<seq<byte>>)
    ensures writes == [] ==> MessageFrames(writes) == []
    ensures writes != [] ==> FragmentedMessage(MessageFrames(writes))
    ensures writes != [] ==> |MessageFrames(writes)| == |writes| + 1
    ensures writes != [] ==> MessageFrames(writes)[|writes|] == EndFrame
    ensures forall i :: 0 <= i < |writes| ==> MessageFrames(writes)[i] == DataFrame(writes[i])
    ensures Payload(MessageFrames(writes)) == Concat(writes)
  {
    DataFramesShape(writes);
    if writes != [] {
      PayloadAppend(DataFrames(writes), [EndFrame]);
      assert Payload([EndFrame]) == [];
    }
  }

  class WritableWebSocketStream {
    const socket: WebSocket
    /** The number of frames written since the last EndMessage. */
    var sendCount: nat

    constructor (socket: WebSocket)
      ensures this.socket == socket && sendCount == 0
    {
      this.socket := socket;
      sendCount := 0;
    }

    function CanRead(): bool { false }
    function CanSeek(): bool { false }
    function Length(): int { 0 }
    function Position(): int { 0 }

    /** CanWrite: only while the socket is open. */
    function CanWrite(): (b: bool)
      reads this, socket
      ensures b <==> socket.state == Open
    {
      socket.state == Open
    }

    /** Setting Position is ignored. */
    method SetPosition(value: int)
      ensures Position() == 0
    {
    }

    method Flush()
    {
    }

    /** The synchronous stream members throw NotImplementedException. */
    method Read(buffer: seq<byte>, offset: int, count: int) returns (r: Result<int, string>)
      ensures r == Err(NotImplementedException)
    {
      r := Err(NotImplementedException);
    }

    method Seek(offset: int, origin: int) returns (r: Result<int, string>)
      ensures r == Err(NotImplementedException)
    {
      r := Err(NotImplementedException);
    }

    method SetLength(value: int) returns (r: Result<Unit, string>)
      ensures r == Err(NotImplementedException)
    {
      r := Err(NotImplementedException);
    }

    method Write(buffer: seq<byte>, offset: int, count: int) returns (r: Result<Unit, string>)
      ensures r == Err(NotImplementedException)
    {
      r := Err(NotImplementedException);
    }

    /**
     * WriteAsync: counts the write, then sends the buffer as one non-final
     * binary frame (the count goes up even when the send throws).
     */
    method WriteAsync(buffer: seq<byte>) returns (r: Result<Unit, string>)
      modifies this, socket
      ensures sendCount == old(sendCount) + 1
      ensures socket.state == old(socket.state)
      ensures old(socket.state) == Open ==> r == Ok(Unit) && socket.sent == old(socket.sent) + [DataFrame(buffer)]
      ensures old(socket.state) != Open ==> r.Err? && socket.sent == old(socket.sent)
    {
      sendCount := sendCount + 1;
      r := socket.SendAsync(buffer, Binary, false);
    }

    /**
     * EndMessage: with nothing written it sends nothing; otherwise it resets
     * the count and sends one empty final binary frame.
     */
    method EndMessage() returns (r: Result<Unit, string>)
      modifies this, socket
      ensures sendCount == 0
      ensures socket.state == old(socket.state)
      ensures old(sendCount) == 0 ==> r == Ok(Unit) && socket.sent == old(socket.sent)
      ensures old(sendCount) > 0 && old(socket.state) == Open ==> r == Ok(Unit) && socket.sent == old(socket.sent) + [EndFrame]
      ensures old(sendCount) > 0 && old(socket.state) != Open ==> r.Err? && socket.sent == old(socket.sent)
    {
      if sendCount == 0 {
        return Ok(Unit);
      }
      sendCount := 0;
      r := socket.SendAsync([], Binary, true);
    }
  }
}

// The parts of System.Net.WebSockets.WebSocket that the connection and the
// writable stream rely on: its state, the frames it has sent, and the frames
// it receives. The network itself is not modelled: a send on an open socket
// is recorded in `sent`, a send on any other socket fails.
module Sockets {
  import opened Wrappers
  import DokanTypes

  type byte = DokanTypes.byte

  /** WebSocketState. */
  datatype SocketState = NoState | Connecting | Open | CloseSent | CloseReceived | Closed | Aborted

  /** WebSocketMessageType. */
  datatype MessageType = Text | Binary | Close

  /** One frame as passed to SendAsync: payload, message type and the end-of-message flag. */
  datatype Frame = Frame(data: seq<byte>, messageType: MessageType, endOfMessage: bool)

  /** The message a WebSocketException carries when a send hits a socket that is not open. */
  const SocketNotOpen := "WebSocketException"

  class WebSocket {
    var state: SocketState
    /** Every frame this socket has put on the wire, oldest first. */
    var sent: seq<Frame>

    constructor (state: SocketState)
      ensures this.state == state && sent == []
    {
      this.state := state;
      sent := [];
    }

    /** SendAsync: an open socket sends the frame; any other state throws. */
    method SendAsync(data: seq<byte>, messageType: MessageType, endOfMessage: bool) returns (r: Result<Unit, string>)
      modifies this
      ensures state == old(state)
      ensures old(state) == Open ==> r == Ok(Unit) && sent == old(sent) + [Frame(data, messageType, endOfMessage)]
      ensures old(state) != Open ==> r == Err(SocketNotOpen) && sent == old(sent)
    {
      if state == Open {
        sent := sent + [Frame(data, messageType, endOfMessage)];
        r := Ok(Unit);
      } else {
        r := Err(SocketNotOpen);
      }
    }

    /** CloseAsync with a normal closure: the closing handshake completes and the socket is Closed. */
    method CloseAsync() returns (r: Result<Unit, string>)
      modifies this
      ensures old(state) == Open ==> r == Ok(Unit) && state == Closed
      ensures old(state) != Open ==> r == Err(SocketNotOpen) && state == old(state)
      ensures sent == old(sent)
    {
      if state == Open {
        state := Closed;
        r := Ok(Unit);
      } else {
        r := Err(SocketNotOpen);
      }
    }
  }
}

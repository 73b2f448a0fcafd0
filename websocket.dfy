/**
 The WebSocket transport object. Its fields are the ones write, flush,
 payload, onSocketConnect and doClose read and update; `sent` and
 `closeCalls` are ghost logs of the calls made into the websocket library
 (sendUTF and close). Each method is proved to change the fields exactly as
 the matching effect function in TransportState says, and its
 postconditions spell out what that means for the caller.
 */
module WebSocketTransport {
  import opened TransportState

  class WebSocket {
    var open: bool            // set by the Transport base class
    var buffer: bool
    var buffered: seq<string>
    var drained: bool
    var hasConnection: bool   // `this.wsConnection` is set
    var listening: bool       // stands for the three wsConnection.on(...) registrations
    ghost var sent: seq<string>
    ghost var closeCalls: nat

    /** The object's state as a TransportState value. */
    ghost function Snapshot(): Conn
      reads this
    {
      Conn(open, buffer, buffered, drained, hasConnection, sent, closeCalls, listening)
    }

    /** A transport before onSocketConnect: not buffering, nothing queued,
        no connection; `open` and `drained` come from the base class. */
    constructor (open: bool, drained: bool)
      ensures Snapshot() == Conn(open, false, [], drained, false, [], 0, false)
    {
      this.open := open;
      this.drained := drained;
      buffer := false;
      buffered := [];
      hasConnection := false;
      listening := false;
      sent := [];
      closeCalls := 0;
    }

    /** `write(data)`. `threw` stands for the TypeError of calling sendUTF
        on a wsConnection that was never stored. */
    method Write(data: string) returns (threw: bool)
      modifies this
      ensures Step(Snapshot(), threw) == WriteEffect(old(Snapshot()), data)
      ensures !old(open) ==> Snapshot() == old(Snapshot()) && !threw
      ensures old(open) && old(buffer) ==>
        buffered == old(buffered) + [data] && !drained && sent == old(sent) && !threw
      ensures old(open) && !old(buffer) && old(hasConnection) ==>
        sent == old(sent) + [data] && buffered == old(buffered) && drained && !threw
      ensures old(open) && !old(buffer) && !old(hasConnection) ==>
        threw && sent == old(sent) && buffered == old(buffered) && !drained
      ensures open == old(open) && buffer == old(buffer) && hasConnection == old(hasConnection)
    {
      threw := false;
      if open {
        drained := false;
        if buffer {
          buffered := buffered + [data];
          return;
        }
        if !hasConnection {
          threw := true;
          return;
        }
        sent := sent + [data];
        drained := true;
      }
    }

    /** `flush()`: clear the flag, then splice and write the head as many
        times as the queue was long when the loop started. */
    method Flush() returns (threw: bool)
      modifies this
      ensures Step(Snapshot(), threw) == FlushEffect(old(Snapshot()))
      ensures !buffer
      ensures old(open) && old(hasConnection) ==>
        buffered == [] && sent == old(sent) + old(buffered) && !threw
      ensures !old(open) ==> buffered == [] && sent == old(sent) && !threw
      ensures old(open) && !old(hasConnection) ==>
        sent == old(sent) && (threw <==> old(buffered) != [])
        && buffered == (if threw then old(buffered)[1..] else [])
    {
      ghost var final := FlushEffect(Snapshot());
      buffer := false;
      var l := |buffered|;
      var i := 0;
      while i < l
        invariant 0 <= i <= l && l - i <= |buffered| && !buffer
        invariant DrainEffect(Snapshot(), l - i) == final
      {
        var head := buffered[0];
        buffered := buffered[1..];
        threw := Write(head);
        if threw {
          return;
        }
        i := i + 1;
      }
      threw := false;
    }

    /** `payload(msgs)`: write each message in index order. */
    method Payload(msgs: seq<string>) returns (threw: bool)
      modifies this
      ensures Step(Snapshot(), threw) == PayloadEffect(old(Snapshot()), msgs)
      ensures !old(open) ==> Snapshot() == old(Snapshot()) && !threw
      ensures old(open) && old(buffer) ==>
        buffered == old(buffered) + msgs && sent == old(sent) && !threw
      ensures old(open) && !old(buffer) && old(hasConnection) ==>
        sent == old(sent) + msgs && buffered == old(buffered) && !threw
    {
      if !open {
        PayloadWhileClosed(Snapshot(), msgs);
      } else if buffer {
        PayloadWhileBuffering(Snapshot(), msgs);
      } else if hasConnection {
        PayloadSendsInOrder(Snapshot(), msgs);
      }
      ghost var final := PayloadEffect(Snapshot(), msgs);
      var i := 0;
      while i < |msgs|
        invariant 0 <= i <= |msgs|
        invariant PayloadEffect(Snapshot(), msgs[i..]) == final
      {
        assert msgs[i..][1..] == msgs[i + 1..];
        threw := Write(msgs[i]);
        if threw {
          return;
        }
        i := i + 1;
      }
      threw := false;
    }

    /** `onSocketConnect()`, with the outcome of readHandshake as input. */
    method Connect(h: Handshake) returns (outcome: Outcome)
      modifies this
      ensures (Snapshot(), outcome) == ConnectEffect(old(Snapshot()), h)
      ensures buffered == [] && sent == old(sent) && drained == old(drained)
      ensures h.Invalid? ==>
        outcome == Rejected(RejectStatus(h.httpCode), h.message)
        && buffer && hasConnection == old(hasConnection) && listening == old(listening)
      ensures h.Valid? ==>
        outcome == Accepted(if |h.requestedProtocols| > 0 then Some(h.requestedProtocols[0]) else None, h.origin)
        && !buffer && hasConnection && listening
    {
      buffer := true;
      buffered := [];
      match h {
        case Invalid(code, message) =>
          outcome := Rejected(RejectStatus(code), message);
        case Valid(protocols, origin) =>
          outcome := Accepted(FirstProtocol(protocols), origin);
          hasConnection := true;
          var threw := Flush();
          assert !threw;  // the connection was stored just before
          listening := true;
      }
    }

    /** `doClose()`: close the connection if one was stored. */
    method DoClose()
      modifies this
      ensures Snapshot() == CloseEffect(old(Snapshot()))
      ensures closeCalls == old(closeCalls) + (if hasConnection then 1 else 0)
      ensures Snapshot().(closeCalls := old(closeCalls)) == old(Snapshot())
    {
      if hasConnection {
        closeCalls := closeCalls + 1;
      }
    }
  }

  /** Two writes queued while buffering, then a stored connection (standing
      for accept) and a flush, then one more write: the socket receives them
      in that order. onSocketConnect itself never reaches this starting
      state, because it empties the queue just before the synchronous
      handshake; this shows what flush does for any queue. */
  method QueuedThenFlushedScenario(t: WebSocket, a: string, b: string, x: string)
    requires t.open && t.buffer && t.buffered == []
    modifies t
    ensures t.sent == old(t.sent) + [a, b, x]
  {
    var threw := t.Write(a);
    threw := t.Write(b);
    t.hasConnection := true;
    threw := t.Flush();
    threw := t.Write(x);
  }
}

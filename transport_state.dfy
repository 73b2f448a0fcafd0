/**
 The WebSocket transport's outbound state as a value, and the effect of each of
 its operations (write, flush, payload, onSocketConnect, doClose) on that value.
 The class in websocket.dfy is proved to update its fields exactly as these
 functions say; the lemmas here state what the effects mean.
 */
module TransportState {

  datatype Option<+T> = None | Some(value: T)

  /** Everything the transport's outbound logic reads or changes. */
  datatype Conn = Conn(
    open: bool,           // owned by the Transport base class; never changed here
    buffer: bool,         // true: writes are queued instead of sent
    buffered: seq<string>,
    drained: bool,
    hasConnection: bool,  // a wsConnection has been accepted and stored
    sent: seq<string>,    // every payload handed to sendUTF, oldest first
    closeCalls: nat,      // number of wsConnection.close() requests
    listening: bool       // the message/close/error handlers are registered
  )

  /** The state after a call, and whether the call ended by throwing
      (sendUTF invoked on a wsConnection that was never stored). */
  datatype Step = Step(conn: Conn, threw: bool)

  /** The fields an outbound write never touches. */
  predicate SameFlags(a: Conn, b: Conn)
  {
    a.open == b.open && a.buffer == b.buffer && a.hasConnection == b.hasConnection
    && a.closeCalls == b.closeCalls && a.listening == b.listening
  }

  // ---------------------------------------------------------------- write

  /** `write(data)`: queue while buffering, send otherwise, drop when not open. */
  function WriteEffect(c: Conn, data: string): (r: Step)
    ensures SameFlags(r.conn, c)
    ensures r.conn.sent == c.sent || r.conn.sent == c.sent + [data]
    ensures r.conn.buffered == c.buffered || r.conn.buffered == c.buffered + [data]
    ensures r.conn.sent == c.sent || r.conn.buffered == c.buffered
    ensures r.threw ==> r.conn.sent == c.sent && r.conn.buffered == c.buffered && !r.conn.drained
  {
    if !c.open then Step(c, false)
    else if c.buffer then Step(c.(drained := false, buffered := c.buffered + [data]), false)
    else if !c.hasConnection then Step(c.(drained := false), true)
    else Step(c.(sent := c.sent + [data], drained := true), false)
  }

  // ---------------------------------------------------------------- flush

  /** `n` rounds of flush's loop body: splice the head off `buffered` and
      write it; an exception from write leaves the loop (and flush). */
  function DrainEffect(c: Conn, n: nat): (r: Step)
    requires n <= |c.buffered|
    ensures SameFlags(r.conn, c)
    ensures |r.conn.buffered| >= |c.buffered| - n
    decreases n
  {
    if n == 0 then Step(c, false)
    else
      var s := WriteEffect(c.(buffered := c.buffered[1..]), c.buffered[0]);
      if s.threw then s else DrainEffect(s.conn, n - 1)
  }

  /** While writing directly, `n` rounds send the first `n` queued payloads,
      each once and in order, and remove exactly them from the queue. */
  lemma {:induction false} DrainSendsInOrder(c: Conn, n: nat)
    requires c.open && !c.buffer && c.hasConnection && n <= |c.buffered|
    ensures DrainEffect(c, n) == Step(c.(buffered := c.buffered[n..],
                                         sent := c.sent + c.buffered[..n],
                                         drained := if n == 0 then c.drained else true), false)
    decreases n
  {
    if n > 0 {
      var c' := c.(buffered := c.buffered[1..], sent := c.sent + [c.buffered[0]], drained := true);
      assert WriteEffect(c.(buffered := c.buffered[1..]), c.buffered[0]) == Step(c', false);
      DrainSendsInOrder(c', n - 1);
      assert c'.buffered[n - 1..] == c.buffered[n..];
      assert c'.sent + c'.buffered[..n - 1] == c.sent + c.buffered[..n];
    }
  }

  /** When the transport is not open, `n` rounds discard the first `n`
      queued payloads and send nothing. */
  lemma {:induction false} DrainDiscardsWhenClosed(c: Conn, n: nat)
    requires !c.open && n <= |c.buffered|
    ensures DrainEffect(c, n) == Step(c.(buffered := c.buffered[n..]), false)
    decreases n
  {
    if n > 0 {
      var c' := c.(buffered := c.buffered[1..]);
      DrainDiscardsWhenClosed(c', n - 1);
      assert c'.buffered[n - 1..] == c.buffered[n..];
    }
  }

  /** Why flush clears the flag before looping: were `buffer` still set,
      every spliced payload would be pushed straight back, so a full pass
      would only rotate the queue and send nothing. */
  lemma {:induction false} DrainWhileBufferingRotates(c: Conn, n: nat)
    requires c.open && c.buffer && n <= |c.buffered|
    ensures DrainEffect(c, n) == Step(c.(buffered := c.buffered[n..] + c.buffered[..n],
                                         drained := if n == 0 then c.drained else false), false)
    decreases n
  {
    if n > 0 {
      var b := c.buffered;
      var c' := c.(buffered := b[1..] + [b[0]], drained := false);
      assert WriteEffect(c.(buffered := b[1..]), b[0]) == Step(c', false);
      DrainWhileBufferingRotates(c', n - 1);
      assert c'.buffered[n - 1..] == b[n..] + [b[0]];
      assert c'.buffered[..n - 1] == b[1..n];
      assert b[..n] == [b[0]] + b[1..n];
    }
  }

  /** `flush()`: clear the buffer flag, then run the loop as many times as
      `buffered` had elements when it started. The flag ends cleared; with a
      connection the whole queue is sent in insertion order, each payload
      once; when not open the queue is discarded unsent; open without a
      connection, the first write throws after its payload was spliced off. */
  function FlushEffect(c: Conn): (r: Step)
    ensures !r.conn.buffer
    ensures c.open && c.hasConnection ==>
      r == Step(c.(buffer := false, buffered := [], sent := c.sent + c.buffered,
                   drained := if c.buffered == [] then c.drained else true), false)
    ensures !c.open ==> r == Step(c.(buffer := false, buffered := []), false)
    ensures c.open && !c.hasConnection ==>
      r == if c.buffered == [] then Step(c.(buffer := false), false)
           else Step(c.(buffer := false, buffered := c.buffered[1..], drained := false), true)
  {
    var d := c.(buffer := false);
    var n := |c.buffered|;
    if c.open && c.hasConnection then
      DrainSendsInOrder(d, n);
      assert c.buffered[..n] == c.buffered;
      DrainEffect(d, n)
    else if !c.open then
      DrainDiscardsWhenClosed(d, n);
      DrainEffect(d, n)
    else
      DrainEffect(d, n)
  }

  // -------------------------------------------------------------- payload

  /** `payload(msgs)`: `write` on each element in index order; an exception
      from write ends the batch. */
  function PayloadEffect(c: Conn, msgs: seq<string>): (r: Step)
    ensures SameFlags(r.conn, c)
    decreases |msgs|
  {
    if msgs == [] then Step(c, false)
    else
      var s := WriteEffect(c, msgs[0]);
      if s.threw then s else PayloadEffect(s.conn, msgs[1..])
  }

  /** A batch is the same as its two halves written one after the other. */
  lemma {:induction false} PayloadConcat(c: Conn, a: seq<string>, b: seq<string>)
    ensures PayloadEffect(c, a + b) ==
      var s := PayloadEffect(c, a); if s.threw then s else PayloadEffect(s.conn, b)
    decreases |a|
  {
    if a == [] {
      assert a + b == b;
    } else {
      assert (a + b)[0] == a[0];
      assert (a + b)[1..] == a[1..] + b;
      var s := WriteEffect(c, a[0]);
      if !s.threw {
        PayloadConcat(s.conn, a[1..], b);
      }
    }
  }

  /** When not open, a batch changes nothing. */
  lemma {:induction false} PayloadWhileClosed(c: Conn, msgs: seq<string>)
    requires !c.open
    ensures PayloadEffect(c, msgs) == Step(c, false)
    decreases |msgs|
  {
    if msgs != [] {
      PayloadWhileClosed(c, msgs[1..]);
    }
  }

  /** While buffering, a batch is appended to the queue in order, nothing
      is sent, and `drained` drops once anything was queued. */
  lemma {:induction false} PayloadWhileBuffering(c: Conn, msgs: seq<string>)
    requires c.open && c.buffer
    ensures PayloadEffect(c, msgs) == Step(c.(buffered := c.buffered + msgs,
                                             drained := if msgs == [] then c.drained else false), false)
    decreases |msgs|
  {
    if msgs != [] {
      var c' := c.(drained := false, buffered := c.buffered + [msgs[0]]);
      PayloadWhileBuffering(c', msgs[1..]);
      assert c'.buffered + msgs[1..] == c.buffered + msgs;
    }
  }

  /** Writing directly, a batch is sent in order, each element once. */
  lemma {:induction false} PayloadSendsInOrder(c: Conn, msgs: seq<string>)
    requires c.open && !c.buffer && c.hasConnection
    ensures PayloadEffect(c, msgs) == Step(c.(sent := c.sent + msgs,
                                             drained := if msgs == [] then c.drained else true), false)
    decreases |msgs|
  {
    if msgs != [] {
      var c' := c.(sent := c.sent + [msgs[0]], drained := true);
      PayloadSendsInOrder(c', msgs[1..]);
      assert c'.sent + msgs[1..] == c.sent + msgs;
    }
  }

  // ------------------------------------------------------ onSocketConnect

  /** What readHandshake concluded about the upgrade request. */
  datatype Handshake =
    | Valid(requestedProtocols: seq<string>, origin: string)
    | Invalid(httpCode: Option<int>, message: string)   // the exception readHandshake threw

  /** What was answered to the peer. */
  datatype Outcome =
    | Accepted(protocol: Option<string>, origin: string)
    | Rejected(status: int, reason: string)

  /** `e.httpCode ? e.httpCode : 400`: the exception's code when it is
      truthy (present and non-zero), otherwise 400. */
  function RejectStatus(httpCode: Option<int>): (status: int)
    ensures status != 0
    ensures httpCode.Some? && httpCode.value != 0 ==> status == httpCode.value
    ensures httpCode == None || httpCode == Some(0) ==> status == 400
  {
    if httpCode.Some? && httpCode.value != 0 then httpCode.value else 400
  }

  /** `requestedProtocols[0]`, which is undefined for an empty list. */
  function FirstProtocol(protocols: seq<string>): Option<string>
  {
    if |protocols| > 0 then Some(protocols[0]) else None
  }

  /** `onSocketConnect()`: arm buffering with an empty queue, then either
      reject, or accept, store the connection, flush and register handlers. */
  function ConnectEffect(c: Conn, h: Handshake): (r: (Conn, Outcome))
    ensures r.0.buffered == [] && r.0.sent == c.sent
    ensures r.0.open == c.open && r.0.closeCalls == c.closeCalls && r.0.drained == c.drained
    ensures r.1.Rejected? <==> h.Invalid?
    ensures h.Invalid? ==>
      r.1 == Rejected(RejectStatus(h.httpCode), h.message) && r.1.status != 0
      && r.0.buffer && r.0.hasConnection == c.hasConnection && r.0.listening == c.listening
    ensures h.Valid? ==>
      r.1 == Accepted(if |h.requestedProtocols| > 0 then Some(h.requestedProtocols[0]) else None, h.origin)
      && !r.0.buffer && r.0.hasConnection && r.0.listening
  {
    var armed := c.(buffer := true, buffered := []);
    match h
    case Invalid(code, message) => (armed, Rejected(RejectStatus(code), message))
    case Valid(protocols, origin) =>
      var flushed := FlushEffect(armed.(hasConnection := true)).conn;
      (flushed.(listening := true), Accepted(FirstProtocol(protocols), origin))
  }

  // -------------------------------------------------------------- doClose

  /** `doClose()`: ask the connection to close, if one was stored. */
  function CloseEffect(c: Conn): (r: Conn)
    ensures r.closeCalls == if c.hasConnection then c.closeCalls + 1 else c.closeCalls
    ensures r.(closeCalls := c.closeCalls) == c
  {
    if c.hasConnection then c.(closeCalls := c.closeCalls + 1) else c
  }

  // -------------------------------------------------- lifecycle properties

  /** Payloads queued while buffering, then the connection accepted and
      flushed, then later writes: the socket sees the old queue, the queued
      batch and the later batch, in that order, each exactly once. */
  lemma QueuedWritesPrecedeLaterWrites(c: Conn, early: seq<string>, late: seq<string>)
    requires c.open && c.buffer
    ensures
      var queued := PayloadEffect(c, early).conn;
      var flushed := FlushEffect(queued.(hasConnection := true)).conn;
      var after := PayloadEffect(flushed, late);
      !after.threw && after.conn.buffered == [] && !after.conn.buffer
      && after.conn.sent == c.sent + c.buffered + early + late
  {
    PayloadWhileBuffering(c, early);
    var queued := PayloadEffect(c, early).conn;
    var flushed := FlushEffect(queued.(hasConnection := true)).conn;
    PayloadSendsInOrder(flushed, late);
  }

  /** After a rejected handshake nothing is ever sent: writes pile up in the
      queue (or are dropped when not open), and, if no connection existed
      before, doClose does nothing. */
  lemma RejectedHandshakeNeverSends(c: Conn, h: Handshake, msgs: seq<string>)
    requires h.Invalid?
    ensures
      var after := PayloadEffect(ConnectEffect(c, h).0, msgs);
      !after.threw && after.conn.sent == c.sent && after.conn.buffer
      && after.conn.buffered == (if c.open then msgs else [])
      && (!c.hasConnection ==> CloseEffect(after.conn) == after.conn)
  {
    var st := ConnectEffect(c, h).0;
    if c.open {
      PayloadWhileBuffering(st, msgs);
    } else {
      PayloadWhileClosed(st, msgs);
    }
  }

  /** After an accepted handshake, writes on an open transport go straight
      to the socket, in order, leaving nothing queued. */
  lemma AcceptedHandshakeSendsDirectly(c: Conn, h: Handshake, msgs: seq<string>)
    requires h.Valid? && c.open
    ensures
      var after := PayloadEffect(ConnectEffect(c, h).0, msgs);
      !after.threw && after.conn.buffered == [] && after.conn.sent == c.sent + msgs
  {
    PayloadSendsInOrder(ConnectEffect(c, h).0, msgs);
  }
}

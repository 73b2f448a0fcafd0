/**
 What the handlers that onSocketConnect registers on an accepted connection
 do with each inbound event. The packet decoder belongs to the parser module
 and is taken as a parameter, so nothing is assumed about it.
 */
module Inbound {
  import opened TransportState

  /** A frame-level message event: its `type` and its `utf8Data`. */
  datatype Message = Message(kind: string, utf8Data: string)

  datatype Event =
    | MessageEvent(message: Message)
    | CloseEvent
    | ErrorEvent(error: string)

  /** What one event causes in the transport. */
  datatype Effect<P> =
    | Deliver(packet: P)   // onMessage(decodePacket(utf8Data))
    | Warn                 // log.warn only
    | CallOnClose          // onClose()
    | NoEffect

  /** The three registered handlers: utf8 messages are decoded and
      delivered, binary messages and errors only warn, close calls onClose,
      any other message type is ignored. */
  function Dispatch<P>(decode: string -> P, e: Event): (r: Effect<P>)
    ensures r.Deliver? <==> e.MessageEvent? && e.message.kind == "utf8"
    ensures r.Deliver? ==> r.packet == decode(e.message.utf8Data)
    ensures r.Warn? <==> (e.MessageEvent? && e.message.kind == "binary") || e.ErrorEvent?
    ensures r.CallOnClose? <==> e.CloseEvent?
  {
    match e
    case MessageEvent(m) =>
      if m.kind == "utf8" then Deliver(decode(m.utf8Data))
      else if m.kind == "binary" then Warn
      else NoEffect
    case CloseEvent => CallOnClose
    case ErrorEvent(_) => Warn
  }

  /** Events reach the handlers only once they are registered. */
  function Receive<P>(c: Conn, decode: string -> P, e: Event): Effect<P>
  {
    if c.listening then Dispatch(decode, e) else NoEffect
  }

  /** The effects of a stream of events, one per event, in emission order. */
  function DispatchAll<P>(decode: string -> P, es: seq<Event>): (r: seq<Effect<P>>)
    ensures |r| == |es|
    ensures forall i :: 0 <= i < |es| ==> r[i] == Dispatch(decode, es[i])
    decreases |es|
  {
    if es == [] then [] else [Dispatch(decode, es[0])] + DispatchAll(decode, es[1..])
  }

  /** The packets handed to onMessage, in order. */
  function Delivered<P>(effects: seq<Effect<P>>): seq<P>
    decreases |effects|
  {
    if effects == [] then []
    else (if effects[0].Deliver? then [effects[0].packet] else []) + Delivered(effects[1..])
  }

  /** The text of every utf8 message event, in order. */
  function Utf8Texts(es: seq<Event>): seq<string>
    decreases |es|
  {
    if es == [] then []
    else
      (if es[0].MessageEvent? && es[0].message.kind == "utf8" then [es[0].message.utf8Data] else [])
      + Utf8Texts(es[1..])
  }

  /** `decode` applied to each text, in order. */
  function Decoded<P>(decode: string -> P, texts: seq<string>): (r: seq<P>)
    ensures |r| == |texts|
    ensures forall i :: 0 <= i < |texts| ==> r[i] == decode(texts[i])
    decreases |texts|
  {
    if texts == [] then [] else [decode(texts[0])] + Decoded(decode, texts[1..])
  }

  /** onMessage is called exactly once per utf8 message, with its decoded
      text, in the order the engine emitted them; nothing else reaches it. */
  lemma {:induction false} DeliveredInOrder<P>(decode: string -> P, es: seq<Event>)
    ensures Delivered(DispatchAll(decode, es)) == Decoded(decode, Utf8Texts(es))
    decreases |es|
  {
    if es != [] {
      DeliveredInOrder(decode, es[1..]);
      var d := DispatchAll(decode, es);
      assert d[0] == Dispatch(decode, es[0]);
      assert d[1..] == DispatchAll(decode, es[1..]);
      var t := Utf8Texts(es);
      var t' := Utf8Texts(es[1..]);
      if es[0].MessageEvent? && es[0].message.kind == "utf8" {
        assert t == [es[0].message.utf8Data] + t';
        assert t[1..] == t';
      } else {
        assert t == t';
      }
    }
  }

  /** On a transport that never listened, onSocketConnect wires up the
      handlers exactly when the handshake is accepted: afterwards every event
      is dispatched; after a rejection no event reaches onMessage or onClose. */
  lemma HandlersActiveExactlyAfterAccept<P>(c: Conn, h: Handshake, decode: string -> P, e: Event)
    requires !c.listening
    ensures Receive(ConnectEffect(c, h).0, decode, e) == (if h.Valid? then Dispatch(decode, e) else NoEffect)
  {
  }
}

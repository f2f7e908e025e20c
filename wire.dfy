/** The values that cross the push channel: what callers hand to `send`, what the
    transport delivers, and the stamping rule `send` applies to objects without an id.
    JSON text encoding is not modelled: a frame is the value before `JSON.stringify`
    or after `JSON.parse`. */
module Wire {

  datatype Option<+T> = None | Some(value: T)

  /** What `generateId()` returns: a base-36 clock prefix followed by random digits,
      so never the empty string. */
  type Id = s: string | s != "" witness "0"

  /** The `data` of a message: the heartbeat's `{ timestamp }` object, or any other
      JSON value, kept opaque. */
  datatype Data = Clock(timestamp: int) | Json(text: string)

  /** A value handed to `send`. A non-null object is an `Object`, described by the
      four properties of the message envelope the code reads or writes (an absent
      `type` or `id` is `None`; `data` stands for the rest of the object). The other
      variants are the primitive values a caller may pass. */
  datatype Payload =
    | Object(msgType: Option<string>, data: Data, timestamp: Option<int>, id: Option<string>)
    | Text(text: string)
    | Number(n: int)
    | Bool(b: bool)
    | Null

  /** The `type` reserved for keep-alive messages, in both directions. */
  const HeartbeatType := "heartbeat"

  /** The object carries a truthy `id`, so `!data.id` is false. */
  predicate HasId(p: Payload) {
    p.Object? && p.id.Some? && p.id.value != ""
  }

  /** JavaScript truthiness, as the queue flush tests each message with `if (message)`.
      Every object is truthy. */
  predicate Truthy(p: Payload) {
    match p
    case Object(_, _, _, _) => true
    case Text(s) => s != ""
    case Number(n) => n != 0
    case Bool(b) => b
    case Null => false
  }

  /** The frame `send` transmits for `p` on an open socket: a copy of an object that
      has no id, carrying the current time and a fresh id; anything else as is. */
  function Stamp(p: Payload, now: int, newId: Id): (r: Payload)
    ensures r.Object? <==> p.Object?
    ensures p.Object? ==> HasId(r) && r.msgType == p.msgType && r.data == p.data
    ensures HasId(p) || !p.Object? ==> r == p
    ensures p.Object? && !HasId(p) ==> r.timestamp == Some(now) && r.id == Some(newId)
  {
    if p.Object? && !HasId(p) then p.(timestamp := Some(now), id := Some(newId)) else p
  }

  /** The message `sendMessage(type, payload)` builds. It already has an id, so
      `send` never stamps it again. */
  function Envelope(msgType: string, payload: Data, now: int, newId: Id): (m: Payload)
    ensures HasId(m) && m.msgType == Some(msgType) && m.data == payload && m.timestamp == Some(now)
    ensures forall later: int, other: Id :: Stamp(m, later, other) == m
  {
    Object(Some(msgType), payload, Some(now), Some(newId))
  }

  /** The keep-alive message the heartbeat sends: `{ type: 'heartbeat', data: { timestamp } }`,
      without an id, so `send` stamps it. */
  function HeartbeatMessage(now: int): (m: Payload)
    ensures m.Object? && !HasId(m) && m.msgType == Some(HeartbeatType) && m.data == Clock(now)
  {
    Object(Some(HeartbeatType), Clock(now), None, None)
  }

  /** An inbound frame. `Parsed` is text that `JSON.parse` turns into an object, with
      its `type` (`None` when absent or not a string), `data` and `id`; `Raw` is
      every other frame, including text that is not JSON and JSON that is not an object. */
  datatype Frame = Parsed(msgType: Option<string>, data: Data, id: Option<string>) | Raw(text: string)

  /** A heartbeat reply from the server. */
  predicate IsHeartbeat(f: Frame) {
    f.Parsed? && f.msgType == Some(HeartbeatType)
  }
}

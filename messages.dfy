/**
 The control messages the relay exchanges with browsers, as values. JSON
 parsing and printing are not modelled: an inbound frame arrives already
 classified, and every frame the parser would reject (bad JSON, a payload
 that is not an object, a missing or unknown `type`) is `Malformed`.
 */
module Messages {

  datatype Option<+T> = None | Some(value: T)

  /** Participant ids and room ids are the strings the clients send. */
  type UserId = string
  type RoomId = string

  /** An explicit identifier for one realtime channel (one browser tab). */
  type ConnId = nat

  /** A JSON value inside a negotiation message; the router never looks into it. */
  datatype Value = Str(s: string) | Null | Opaque(json: string)

  /** The three negotiation message types the router forwards. */
  datatype Kind = Offer | Answer | IceCandidate

  /**
   An inbound TEXT frame after parsing. A `join` whose `user_id` or
   `room_id` key is missing keeps `None` there. A negotiation message
   keeps its `target` (or `None` when the key is missing) and, in
   `fields`, every key except `type` and `target`.
   */
  datatype Inbound =
    | Join(user: Option<UserId>, room: Option<RoomId>)
    | Negotiate(kind: Kind, target: Option<UserId>, fields: map<string, Value>)
    | Malformed

  /** What the channel yields: a TEXT frame, or any other frame type. */
  datatype Frame = Text(msg: Inbound) | NonText

  /** Messages the relay sends. `Forwarded` is the inbound negotiation message, re-sent. */
  datatype Outbound =
    | UserJoined(user: UserId)
    | Users(roster: seq<UserId>)
    | Forwarded(kind: Kind, target: UserId, fields: map<string, Value>)

  /** One delivery: a message written to a channel. */
  datatype Send = Send(conn: ConnId, msg: Outbound)

  /** The JSON value of a handler's `user_id` local: the id, or `null` before any join. */
  function UserValue(user: Option<UserId>): (v: Value)
    ensures v.Str? <==> user.Some?
    ensures user.Some? ==> v.s == user.value
  {
    if user.Some? then Str(user.value) else Null
  }
}

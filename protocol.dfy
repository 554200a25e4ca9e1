/**
  The signaling protocol shared by the relay and the browser client.

  On the wire every message is a JSON object whose `type` field selects the
  variant; here each `type` the relay or the client looks at is one
  constructor, and any other `type` is `Other`. Payloads the relay never
  interprets (session descriptions, ICE candidates, chat text) are opaque
  strings.
 */
module Protocol {

  datatype Option<T> = None | Some(value: T)

  /** A transport connection as the relay sees it. */
  type ConnId = nat

  /** The four message types the relay forwards unchanged except for `from`. */
  datatype Kind = Offer | Answer | IceCandidate | Chat

  datatype Message =
      /** `join`: enter `room` under the participant id `streamId`. */
    | Join(room: string, streamId: string, role: string)
      /** `joined`: the relay's acknowledgement to the joiner. */
    | Joined(room: string, peerId: string)
      /** `peer-joined`: a new member arrived; `peerRole` is read by the client
          but never filled in by the relay. */
    | PeerJoined(peerId: string, peerRole: Option<string>)
      /** `offer`, `answer`, `ice-candidate` and `chat`. */
    | Relayed(kind: Kind, body: string, to: Option<string>, forRoom: Option<string>, from: Option<string>)
      /** `peer-left`: a member of the room went away. */
    | PeerLeft(peerId: string)
      /** `leave`: the sender quits its room. */
    | Leave(leftRoom: Option<string>, leaver: Option<string>)
      /** `error`, as sent for a full room. */
    | Error(error: string)
      /** any other `type`: ignored by both sides. */
    | Other(tag: string)

  /** The text the relay sends when a room is at capacity. */
  const RoomFull: string := "Room full"
}

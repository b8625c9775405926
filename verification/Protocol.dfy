/** The vocabulary the three programs share: constants, move flags, chat channels,
    and the messages of the game connection after decoding. */
module Protocol {

  newtype byte = b: int | 0 <= b < 0x100

  /** Text is kept as the bytes the wire carries. */
  type Text = seq<byte>

  datatype Option<+T> = None | Some(value: T) {
    function GetOr(default: T): T {
      if Some? then value else default
    }
  }

  const UP: byte := 1
  const DOWN: byte := 2
  const LEFT: byte := 4
  const RIGHT: byte := 8

  const MAX_CHAT_MESSAGE_LEN := 255
  const TOKEN_LENGTH := 32

  /** `flags & mask` for a mask of one bit. */
  predicate Has(flags: byte, mask: byte)
    requires mask != 0
  {
    flags / mask % 2 == 1
  }

  datatype Channel = Say | Yell | Whisper | Guild | OtherChannel(code: byte)

  /** A heading is kept as its sine and cosine. */
  datatype SinCos = SinCos(sin: real, cos: real)

  type Angle = a: SinCos | a.sin * a.sin + a.cos * a.cos == 1.0 witness SinCos(0.0, 1.0)

  const ZERO_ANGLE: Angle := SinCos(0.0, 1.0)

  datatype Position = Position(x: real, y: real, z: real, yaw: Angle)

  /** What a game server sends.  `AuthOkTruncated` and `Unrecognised` are never sent by
      this server; the client's handler has a branch for them all the same. */
  datatype Message =
    | AuthOk(characterId: nat)
    | AuthOkTruncated
    | AuthFail
    | PlayerState(stateId: nat, position: Position)
    | PlayerLeave(leaveId: nat)
    | Chat(channel: Channel, sender: Text, text: Text)
    | Pong
    | Unrecognised

  /** What the game server's dispatcher makes of one packet: opcode and payload decoded,
      with the payload-too-small outcomes kept apart. */
  datatype Request =
    | Ping
    | GameAuth(token: Text)
    | GameAuthTooSmall
    | Move(moveFlags: byte, yaw: Angle)
    | MoveTooSmall
    | ChatSay(channel: Channel, target: Text, text: Text)
    | ChatTooSmall
    | OtherOpcode
}

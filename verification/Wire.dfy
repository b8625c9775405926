/** Byte layouts of the packets and their decoding on the other side. */
module Wire {
  import opened Protocol
  import opened Token

  const HEADER_SIZE := 4

  const CMSG_PING := 0x0001
  const SMSG_PONG := 0x0002
  const CMSG_AUTH_SESSION := 0x0003
  const SMSG_AUTH_RESPONSE := 0x0004
  const CMSG_GAME_AUTH := 0x0005
  const SMSG_GAME_AUTH_OK := 0x0006
  const SMSG_GAME_AUTH_FAIL := 0x0007
  const CMSG_CHAT_SAY := 0x0100
  const SMSG_CHAT_SAY := 0x0101
  const CMSG_PLAYER_MOVE := 0x0200
  const SMSG_PLAYER_STATE := 0x0201
  const SMSG_PLAYER_LEAVE := 0x0202

  type U16 = n: nat | n < 0x1_0000
  type U32 = n: nat | n < 0x1_0000_0000

  function PutU16(n: U16): (s: Text)
    ensures |s| == 2
  {
    [(n % 256) as byte, (n / 256) as byte]
  }

  function GetU16(s: Text): U16
    requires |s| == 2
  {
    s[0] as nat + 256 * s[1] as nat
  }

  function PutU32(n: U32): (s: Text)
    ensures |s| == 4
  {
    PutU16(n % 0x1_0000) + PutU16(n / 0x1_0000)
  }

  function GetU32(s: Text): U32
    requires |s| == 4
  {
    GetU16(s[..2]) + 0x1_0000 * GetU16(s[2..])
  }

  lemma U16RoundTrip(n: U16)
    ensures GetU16(PutU16(n)) == n
  {
  }

  lemma U32RoundTrip(n: U32)
    ensures GetU32(PutU32(n)) == n
  {
    assert PutU32(n)[..2] == PutU16(n % 0x1_0000) && PutU32(n)[2..] == PutU16(n / 0x1_0000);
  }

  // ----- fixed-width text -----

  /** The bytes before the first NUL, or all of them. */
  function CString(s: Text): (r: Text)
    ensures |r| <= |s| && r == s[..|r|] && 0 !in r
    ensures |r| < |s| ==> s[|r|] == 0
  {
    if s == [] || s[0] == 0 then [] else [s[0]] + CString(s[1..])
  }

  function Nuls(n: nat): (s: Text)
    ensures |s| == n && forall k | 0 <= k < n :: s[k] == 0
  {
    seq(n, k => 0 as byte)
  }

  function Take(s: Text, n: nat): Text {
    if |s| <= n then s else s[..n]
  }

  /** memset to zero, then strncpy of at most width - 1 bytes. */
  function CField(s: Text, width: nat): (r: Text)
    requires width > 0
    ensures |r| == width
  {
    var t := Take(CString(s), width - 1);
    t + Nuls(width - |t|)
  }

  lemma CStringUnique(s: Text, n: nat)
    requires n <= |s| && 0 !in s[..n] && (n < |s| ==> s[n] == 0)
    ensures CString(s) == s[..n]
  {
    assert forall k | 0 <= k < n :: s[k] == s[..n][k];
    assert forall k | 0 <= k < |CString(s)| :: s[k] == CString(s)[k];
  }

  /** A field reads back as the first width - 1 bytes of a NUL-free text. */
  lemma FieldReadsBack(s: Text, width: nat)
    requires width > 0 && 0 !in s
    ensures CString(CField(s, width)) == Take(s, width - 1)
  {
    CStringUnique(s, |s|);
    assert s[..|s|] == s;
    var t, f := Take(s, width - 1), CField(s, width);
    assert f[..|t|] == t && f[|t|] == 0;
    CStringUnique(f, |t|);
  }

  // ----- packets -----

  /** A received packet: its header's two fields and the bytes after them. */
  datatype Packet = Packet(size: U16, opcode: U16, payload: Text)

  predicate WellFormed(p: Packet) {
    p.size == HEADER_SIZE + |p.payload|
  }

  function Encode(p: Packet): Text {
    PutU16(p.size) + PutU16(p.opcode) + p.payload
  }

  function Pack(opcode: U16, payload: Text): (p: Packet)
    requires |payload| < 0x1_0000 - HEADER_SIZE
    ensures WellFormed(p)
  {
    Packet(HEADER_SIZE + |payload|, opcode, payload)
  }

  function ChannelOf(code: byte): Channel {
    if code == 0 then Say else if code == 1 then Yell else if code == 2 then Whisper
    else if code == 3 then Guild else OtherChannel(code)
  }

  predicate NamedChannel(c: Channel) {
    c.OtherChannel? ==> c.code > 3
  }

  function ChannelCode(c: Channel): byte {
    match c
    case Say => 0
    case Yell => 1
    case Whisper => 2
    case Guild => 3
    case OtherChannel(code) => code
  }

  // Login server to client, and client to game server.

  function RedirectPacket(ip: Text, port: U16, token: Text): Packet
    requires |token| == TOKEN_LENGTH
  {
    Pack(SMSG_AUTH_RESPONSE, CField(ip, 16) + PutU16(port) + token)
  }

  datatype Redirect = Redirect(ip: Text, port: U16, token: Text)

  function ReadRedirect(p: Packet): Option<Redirect> {
    if p.opcode == SMSG_AUTH_RESPONSE && |p.payload| >= 50
    then Some(Redirect(CString(p.payload[..16]), GetU16(p.payload[16..18]), p.payload[18..50]))
    else None
  }

  function GameAuthPacket(token: Text): Packet
    requires |token| == TOKEN_LENGTH
  {
    Pack(CMSG_GAME_AUTH, token)
  }

  // Game server to client.  A position travels as 16 bytes; `position` reads them.

  function StatePacket(id: U32, raw: Text): Packet
    requires |raw| == 16
  {
    Pack(SMSG_PLAYER_STATE, PutU32(id) + raw)
  }

  function LeavePacket(id: U32): Packet {
    Pack(SMSG_PLAYER_LEAVE, PutU32(id))
  }

  function AuthOkPacket(id: U32): Packet {
    Pack(SMSG_GAME_AUTH_OK, PutU32(id))
  }

  function ChatPacket(channel: Channel, sender: Text, text: Text): Packet
    requires |text| <= MAX_CHAT_MESSAGE_LEN
  {
    Pack(SMSG_CHAT_SAY, [ChannelCode(channel)] + CField(sender, 32) + text)
  }

  /** The client's reading of a game packet. */
  function ClientReads(p: Packet, position: Text -> Position): Message {
    if p.opcode == SMSG_GAME_AUTH_OK then
      if |p.payload| >= 4 then AuthOk(GetU32(p.payload[..4])) else AuthOkTruncated
    else if p.opcode == SMSG_GAME_AUTH_FAIL then AuthFail
    else if p.opcode == SMSG_PLAYER_STATE && |p.payload| >= 20 then
      PlayerState(GetU32(p.payload[..4]), position(p.payload[4..20]))
    else if p.opcode == SMSG_PLAYER_LEAVE && |p.payload| >= 4 then PlayerLeave(GetU32(p.payload[..4]))
    else if p.opcode == SMSG_CHAT_SAY && |p.payload| >= 33 then
      Chat(ChannelOf(p.payload[0]), CString(p.payload[1..33]), p.payload[33..])
    else if p.opcode == SMSG_PONG then Pong
    else Unrecognised
  }

  // Client to game server.  A yaw travels as 4 bytes; `angle` reads them.

  function ChatSendPacket(channel: Channel, target: Text, text: Text): Packet
    requires |text| < 0x1_0000 - HEADER_SIZE - 33
  {
    Pack(CMSG_CHAT_SAY, [ChannelCode(channel)] + CField(target, 32) + text)
  }

  function MovePacket(flags: byte, raw: Text): Packet
    requires |raw| == 4
  {
    Pack(CMSG_PLAYER_MOVE, [flags] + raw)
  }

  /** The game server's reading of an opcode and whatever is in the payload buffer. */
  function ServerReads(opcode: U16, payload: Text, angle: Text -> Angle): Request {
    if opcode == CMSG_PING then Ping
    else if opcode == CMSG_GAME_AUTH then
      if |payload| >= 32 then GameAuth(payload[..32]) else GameAuthTooSmall
    else if opcode == CMSG_PLAYER_MOVE then
      if |payload| >= 5 then Move(payload[0], angle(payload[1..5])) else MoveTooSmall
    else if opcode == CMSG_CHAT_SAY then
      if |payload| >= 33
      then ChatSay(ChannelOf(payload[0]), CString(payload[1..33]), Take(payload[33..], MAX_CHAT_MESSAGE_LEN))
      else ChatTooSmall
    else OtherOpcode
  }

  // ----- byte for byte -----

  /** Numbers go out low byte first. */
  lemma LowByteFirst(n: U32)
    ensures var s := PutU32(n);
            n == s[0] as nat + 0x100 * s[1] as nat + 0x1_0000 * s[2] as nat + 0x100_0000 * s[3] as nat
  {
    var low, high := n % 0x1_0000, n / 0x1_0000;
    U16RoundTrip(low);
    U16RoundTrip(high);
    assert PutU32(n)[0] == PutU16(low)[0] && PutU32(n)[1] == PutU16(low)[1];
    assert PutU32(n)[2] == PutU16(high)[0] && PutU32(n)[3] == PutU16(high)[1];
  }

  lemma EncodeHeader(p: Packet, s0: byte, s1: byte, o0: byte, o1: byte)
    requires p.size == s0 as nat + 0x100 * s1 as nat && p.opcode == o0 as nat + 0x100 * o1 as nat
    ensures Encode(p) == [s0, s1, o0, o1] + p.payload
  {
    assert PutU16(p.size) == [s0, s1] && PutU16(p.opcode) == [o0, o1];
    assert [s0, s1] + [o0, o1] == [s0, s1, o0, o1];
  }

  /** What the two servers write, byte for byte: size and opcode, low byte first, and the packed fields. */
  lemma ServerBytes(id: U32, raw: Text, ip: Text, port: U16, token: Text)
    requires |raw| == 16 && |token| == TOKEN_LENGTH
    ensures Encode(AuthOkPacket(id)) == [8, 0, 6, 0] + PutU32(id)
    ensures Encode(StatePacket(id, raw)) == [24, 0, 1, 2] + PutU32(id) + raw
    ensures Encode(LeavePacket(id)) == [8, 0, 2, 2] + PutU32(id)
    ensures Encode(Pack(SMSG_GAME_AUTH_FAIL, [])) == [4, 0, 7, 0]
    ensures Encode(Pack(SMSG_PONG, [])) == [4, 0, 2, 0]
    ensures Encode(RedirectPacket(ip, port, token)) ==
            [54, 0, 4, 0] + CField(ip, 16) + [(port % 256) as byte, (port / 256) as byte] + token
  {
    EncodeHeader(AuthOkPacket(id), 8, 0, 6, 0);
    EncodeHeader(StatePacket(id, raw), 24, 0, 1, 2);
    assert [24, 0, 1, 2] + (PutU32(id) + raw) == [24, 0, 1, 2] + PutU32(id) + raw;
    EncodeHeader(LeavePacket(id), 8, 0, 2, 2);
    EncodeHeader(Pack(SMSG_GAME_AUTH_FAIL, []), 4, 0, 7, 0);
    EncodeHeader(Pack(SMSG_PONG, []), 4, 0, 2, 0);
    EncodeHeader(RedirectPacket(ip, port, token), 54, 0, 4, 0);
    var p, rest := PutU16(port), [(port % 256) as byte, (port / 256) as byte];
    assert [54, 0, 4, 0] + (CField(ip, 16) + p + token) == [54, 0, 4, 0] + CField(ip, 16) + rest + token;
  }

  /** What the client writes. */
  lemma ClientBytes(token: Text, flags: byte, raw: Text)
    requires |token| == TOKEN_LENGTH && |raw| == 4
    ensures Encode(GameAuthPacket(token)) == [36, 0, 5, 0] + token
    ensures Encode(MovePacket(flags, raw)) == [9, 0, 0, 2, flags] + raw
    ensures Encode(Pack(CMSG_PING, [])) == [4, 0, 1, 0]
  {
    EncodeHeader(GameAuthPacket(token), 36, 0, 5, 0);
    EncodeHeader(MovePacket(flags, raw), 9, 0, 0, 2);
    assert [9, 0, 0, 2] + ([flags] + raw) == [9, 0, 0, 2, flags] + raw;
    EncodeHeader(Pack(CMSG_PING, []), 4, 0, 1, 0);
  }

  /** Chats in both directions: say is 0, yell 1, whisper 2, guild 3. */
  lemma ChatBytes(channel: Channel, name: Text, text: Text)
    requires |text| <= 255
    ensures var size := 37 + |text|;
            var low, high, code := (size % 256) as byte, (size / 256) as byte, ChannelCode(channel);
            && Encode(ChatSendPacket(channel, name, text)) == [low, high, 0, 1, code] + CField(name, 32) + text
            && Encode(ChatPacket(channel, name, text)) == [low, high, 1, 1, code] + CField(name, 32) + text
    ensures ChannelCode(Say) == 0 && ChannelCode(Yell) == 1 && ChannelCode(Whisper) == 2 && ChannelCode(Guild) == 3
  {
    var size := 37 + |text|;
    var low, high, code := (size % 256) as byte, (size / 256) as byte, ChannelCode(channel);
    EncodeHeader(ChatSendPacket(channel, name, text), low, high, 0, 1);
    EncodeHeader(ChatPacket(channel, name, text), low, high, 1, 1);
    assert [low, high, 0, 1] + ([code] + CField(name, 32) + text) == [low, high, 0, 1, code] + CField(name, 32) + text;
    assert [low, high, 1, 1] + ([code] + CField(name, 32) + text) == [low, high, 1, 1, code] + CField(name, 32) + text;
  }

  // ----- across the programs -----

  lemma RedirectLayout(ip: Text, port: Text, token: Text)
    requires |ip| == 16 && |port| == 2 && |token| == TOKEN_LENGTH
    ensures var payload := ip + port + token;
            |payload| == 50 && payload[..16] == ip && payload[16..18] == port && payload[18..50] == token
  {
  }

  lemma RedirectReadsBack(ip: Text, port: U16, token: Text)
    requires 0 !in ip && |ip| < 16 && |token| == TOKEN_LENGTH
    ensures ReadRedirect(RedirectPacket(ip, port, token)) == Some(Redirect(ip, port, token))
  {
    FieldReadsBack(ip, 16);
    RedirectLayout(CField(ip, 16), PutU16(port), token);
    U16RoundTrip(port);
  }

  /** The token the game server looks up is byte for byte the one the login server inserted:
      printed, sent in the redirect, copied by the client into its auth packet, read back. */
  lemma TokenSurvivesHandoff(a: Draw, b: Draw, ip: Text, port: U16, angle: Text -> Angle)
    requires 0 !in ip && |ip| < 16
    ensures |PrintToken(a, b)| == TOKEN_LENGTH
    ensures var token := PrintToken(a, b);
            var r := ReadRedirect(RedirectPacket(ip, port, token));
            && r == Some(Redirect(ip, port, token))
            && var auth := GameAuthPacket(r.value.token);
               ServerReads(auth.opcode, auth.payload, angle) == GameAuth(token)
  {
    TokenLength(a, b);
    RedirectReadsBack(ip, port, PrintToken(a, b));
    var token := PrintToken(a, b);
    assert token[..32] == token;
  }

  /** What the game server says is what the client reads. */
  lemma GamePacketsReadBack(id: U32, raw: Text, position: Text -> Position)
    requires |raw| == 16
    ensures ClientReads(AuthOkPacket(id), position) == AuthOk(id)
    ensures ClientReads(StatePacket(id, raw), position) == PlayerState(id, position(raw))
    ensures ClientReads(LeavePacket(id), position) == PlayerLeave(id)
  {
    U32RoundTrip(id);
    assert PutU32(id)[..4] == PutU32(id);
    assert (PutU32(id) + raw)[..4] == PutU32(id) && (PutU32(id) + raw)[4..20] == raw;
  }

  /** What the client does is what the game server reads. */
  lemma MovePacketReadsBack(flags: byte, raw: Text, angle: Text -> Angle)
    requires |raw| == 4
    ensures ServerReads(CMSG_PLAYER_MOVE, MovePacket(flags, raw).payload, angle) == Move(flags, angle(raw))
  {
    assert ([flags] + raw)[1..5] == raw;
  }

  lemma ChatLayout(code: byte, name: Text, text: Text)
    requires 0 !in name
    ensures var payload := [code] + CField(name, 32) + text;
            && |payload| == 33 + |text| && payload[0] == code
            && CString(payload[1..33]) == Take(name, 31) && payload[33..] == text
  {
    FieldReadsBack(name, 32);
    var payload := [code] + CField(name, 32) + text;
    assert payload[1..33] == CField(name, 32);
  }

  lemma ChannelReadsBack(channel: Channel)
    requires NamedChannel(channel)
    ensures ChannelOf(ChannelCode(channel)) == channel
  {
  }

  lemma ChatSendReadsBack(channel: Channel, target: Text, text: Text, angle: Text -> Angle)
    requires |text| < 0x1_0000 - HEADER_SIZE - 33 && 0 !in target && NamedChannel(channel)
    ensures ServerReads(CMSG_CHAT_SAY, ChatSendPacket(channel, target, text).payload, angle)
            == ChatSay(channel, Take(target, 31), Take(text, 255))
  {
    ChatLayout(ChannelCode(channel), target, text);
    ChannelReadsBack(channel);
  }

  lemma ChatReadsBack(channel: Channel, sender: Text, text: Text, position: Text -> Position)
    requires |text| <= MAX_CHAT_MESSAGE_LEN && 0 !in sender && NamedChannel(channel)
    ensures ClientReads(ChatPacket(channel, sender, text), position) == Chat(channel, Take(sender, 31), text)
  {
    ChatLayout(ChannelCode(channel), sender, text);
    ChannelReadsBack(channel);
  }

  /** A chat text on its way through the server: the listener sees the channel it was sent on,
      the first 31 bytes of the speaker's name and the first 255 bytes of the text; a whisper's
      target arrives as its first 31 bytes. */
  lemma ChatSurvivesRelay(channel: Channel, target: Text, text: Text, sender: Text, angle: Text -> Angle,
                          position: Text -> Position)
    requires |text| < 0x1_0000 - HEADER_SIZE - 33 && 0 !in target && 0 !in sender && NamedChannel(channel)
    ensures var heard := ServerReads(CMSG_CHAT_SAY, ChatSendPacket(channel, target, text).payload, angle);
            && heard == ChatSay(channel, Take(target, 31), Take(text, 255))
            && ClientReads(ChatPacket(heard.channel, sender, heard.text), position)
               == Chat(channel, Take(sender, 31), Take(text, 255))
  {
    ChatSendReadsBack(channel, target, text, angle);
    ChatReadsBack(channel, sender, Take(text, 255), position);
  }
}

# Rebel: login, world, client replica and frame ring

A model of the Rebel MMO project's moving parts, with proofs of what they promise each other.

* **Login server and tables** (`Database`, `Token`, `LoginServer`): the two transactions on accounts,
  sessions and characters, the printing of tokens, the one-request login connection.
* **Game server** (`World`, `GameServer`, `Strand`): `World` says what each strand step does to the entity
  world, the session list, the outgoing streams and the tables, on values. `GameServer` has component pools,
  session objects, the list of weak pointers and the erase-while-iterating loops, and every handler's
  `ensures` ties the object state to the step. `Strand` runs one handler after the other.
* **Both servers** (`Servers`): the strand and the login server over one database, the two transactions of a
  login request coming between any handlers. The objects follow the step system through every schedule.
* **The whole system** (`System`): login server, game server, tables and clock as one step system over an
  arbitrary list of events. A scheduler, a client or a failing database can choose any of them, and an event
  that does not apply changes nothing. `Ownership`, `Steering`, `Identity`, `Streams`, `Chats`,
  `Departures`, `Replication`, `Handoff`, `TokenLife`, `Persistence`, `Duplicates` and `ChatRouting` prove
  properties of its runs, `Passwords` of the schedules of module `Servers`.
* **Client** (`Replica`, `LogicThread`, `EndToEnd`): the packet fold as a specification with a declarative
  reading, the logic thread with its entity registry refining it, prediction, and the snapshot handed to the
  renderer. `Prediction` runs the logic thread and the game server side by side.
* **Bytes** (`Wire`, `Framing`, `ServerReader`, `GameConnection`): packed layouts, the client's incremental
  framer and mailbox, the game server's read chain with its reused payload buffer, and that chain posting to
  the strand while everything else goes on at both servers.
* **Frame ring** (`FrameRing`, `VulkanRenderer`): `drawFrame` against fences and binary semaphores, with a GPU
  and a presentation engine that complete work in any order. The rules are those of sections 7.3 (Fences) and
  7.4 (Semaphores) of the Vulkan specification, for any number of frame slots and images.

`dafny verify dfyconfig.toml` verifies the project.

## Where the code does less than one might think

* The server reader dispatches a header-only packet with the payload of an earlier one.
  `ServerReader.StaleReaderIsFaithfulExactly` says exactly when that is harmless,
  `ServerReader.StaleMoveIsRepeated` is a stream on which it is not, and `ServerReader.PingsAreHarmless`
  covers the clients that send only pings without a payload.
* One account can be in the world twice. Its character's row then follows one of the two players only.
  `Persistence.SavedRowIsRecent` says what the row is in every run without save errors,
  `Persistence.AutosaveClosesTheGap` when an autosave is exact for everybody,
  `Duplicates.AutosaveCanMissADuplicate` is a run on which it is not, and `Duplicates.DuplicateLagIsUnbounded`
  has a run for every distance a player can be from its saved position. Sharing is all it takes: from every
  reachable state in which two connected players share a character either can be led as far from the row as
  one likes (`Duplicates.DuplicateLagAlwaysGrows`). For a character that is never shared the lag is bounded
  (`Persistence.PersistenceLagIsBounded`).
* A second SMSG_GAME_AUTH_OK under another id can leave the local character tracked as somebody else.
  `Replica.SelfIsRemoteExactly` says exactly when, on the stream; `Replica.SelfCanBeRemoteAfterTwoAuthOks` is
  such a stream. The game server never sends two (`Streams.StreamProtocol`).
* Signalling one semaphore per frame slot instead of per image goes wrong on a run from the start
  (`FrameRing.SlotSemaphoresAreSignaledTwice`), and for one frame exactly when a presentation still waits for
  that semaphore (`FrameRing.WhichSemaphoreExactly`), as the comment at
  client/src/VulkanRenderer.cpp:1425 says.
* recreateSwapchain and cleanup rely on vkDeviceWaitIdle to cover presentations. The specification defines that
  wait by fences on queue commands, and vkQueuePresentKHR takes none. With the submissions finished and nothing
  said about presentations, a rebuild breaks a rule exactly when one still waits
  (`FrameRing.RecreateExactly`, `FrameRing.DestroyExactly`), and one can
  (`FrameRing.FencesDoNotCoverPresentations`).
* With one swapchain image the second acquire blocks for ever (`FrameRing.LoneImageBlocks`); with two or more
  it does not (`FrameRing.NoDeadlock`). createSwapChain asks for one more than the surface's minimum.
* client/src/main.cpp:206 and common/include/Movement.hpp:16 say that client and server move at the same rate.
  In exact arithmetic they agree exactly at equal times, so first after a quarter second, or when the keys
  cancel out (`Movement.PredictionAgreesExactly`).

## Model

| member | source | states |
|---|---|---|
| Movement.StepLength | common/include/Movement.hpp:35-51 | a step's squared length is (forward² + right²)·delta² whatever the heading, so at most twice delta² |
| Movement.StepInCoordinates | common/include/Movement.hpp:35-51 | in coordinates: up adds (sin, cos)·delta of the heading, down takes it away, right adds (cos, -sin)·delta, left takes it away, and a set of held keys, bits 0 to 3 of the flags, adds the sum |
| Movement.KeysPointTheirWay | common/include/Movement.hpp:22-26 | one key at a time: where flags 1, 2, 4 and 8 lead at any heading |
| Movement.WithinTransitive | server/game/src/main.cpp:59-69 | reaches of consecutive moves add up, with the diagonal factor √2 kept |
| Movement.WalkIsOneScaledStep | common/include/Movement.hpp:35-51 | n steps with the same keys and heading equal one step of n deltas |
| Movement.PredictionAgreesExactly | client/src/main.cpp:206-217 | after m client ticks and n server ticks of the same input both sides are at the same point if and only if 5m = 16n (equal times) or the keys cancel out |
| Movement.PredictionMeetsAuthority | client/src/main.cpp:211-217 | in particular 16k client ticks and 5k server ticks end at the same point, for every k |
| Movement.ThereAndBack | common/include/Movement.hpp:35-51 | walking n steps and then n steps with the opposite keys at the same heading is the identity |
| Database.InsertNeverClashes | server/login/schema/002_sessions_and_characters.sql:9-12 | when the account has no character its name is free, so the INSERT cannot violate UNIQUE name |
| Database.AdmittedExactly | server/game/src/main.cpp:359-408 | a token admits if and only if it is stored, unexpired, its account exists, no statement fails and a fresh sequence id is free when a row must be created |
| Database.AdmissionEffect | server/game/src/main.cpp:359-408 | an admission deletes exactly its token, loads a character of that account with that row's position, keeps all other rows and the consistency of the tables |
| Database.AdmissionLoads | server/game/src/main.cpp:383-401 | the character loaded is the account's first by id and no row is written, or, only if it has none, a new row under the sequence's id, at the origin, with the username |
| Token.TokenParses | server/login/src/main.cpp:26-34 | any two 64-bit draws print as exactly 32 lower-case hex characters, and parsing the halves returns both draws |
| Token.TokensDiffer | server/login/src/main.cpp:26-34 | equal tokens come from equal draws |
| Token.EveryTokenIsPrinted | server/login/src/main.cpp:26-34 | every 32-character hex string is the token of the draws it parses to |
| LoginServer.MatchesExactly | server/login/src/main.cpp:120-143 | usernames being unique, credentials match if and only if some account has that name and a stored hash for which the verifier accepts the password |
| LoginServer.OutcomeExactly | server/login/src/main.cpp:81-180 | usernames being unique, a request is redirected if and only if it is a login message of at least 68 bytes with the name of an account and a password accepted for it, no statement fails and the drawn token is new, which is then stored for that account and five minutes; ignored for another opcode, hung up on otherwise |
| LoginServer.LoginSession.VerifyCredentials | server/login/src/main.cpp:120-143 | accepts, usernames being unique, if and only if the query works and some account has that name and a hash for which the verifier accepts the password; remembers that account; is the system step LoginCheck |
| LoginServer.LoginSession.IssueSessionToken | server/login/src/main.cpp:147-162 | prints a fresh token and inserts it, or fails leaving the tables alone; is the system step LoginIssue |
| LoginServer.LoginSession.SendLoginResponse | server/login/src/main.cpp:164-180 | sends exactly one redirect with the fixed endpoint and this session's token |
| LoginServer.LoginSession.ProcessLoginRequest | server/login/src/main.cpp:81-118 | silence, hang-up or redirect exactly as opcode, size, credentials and insertion decide; a request that earns it, and no other, is sent one redirect to 127.0.0.1:12345 with a token now stored for the account of that name and password; the request is a prefix of a check and an issue step of the system, both with a redirect |
| LoginServer.LoginSession.Converse | server/login/src/main.cpp:81-192 | over a connection's life, only a foreign opcode leaves it open; a redirect is the last thing sent before the close |
| TokenLife.TokenKeepsRow | server/login/schema/002_sessions_and_characters.sql:3-8 | through every run in which nobody presents it a stored token keeps its row |
| TokenLife.RedirectIsPresented | client/src/main.cpp:69-94 | the auth packet a client makes from a redirect presents exactly the token that login stored |
| TokenLife.RedirectBuysOneEntry | server/login/src/main.cpp:100-162 | after a credential check at any point of any run, any events of both servers before its token's insertion, and any further run that does not present the token, entering with it succeeds if and only if less than five minutes have passed since the insertion, no statement fails and the account has a character or the new id is free; the entry is for the account that was checked |
| TokenLife.SpentTokenIsRefused | server/game/src/main.cpp:377-378 | from an entry on, the token is refused in every state reached without a login that draws it again |
| LoginServer.OnlyRedirectsStore | server/login/src/main.cpp:147-162 | a request stores no token but its redirect's, with five minutes to live, and touches nothing else |
| GameServer.GameServer.AllLoop | server/game/src/main.cpp:490-500 | the erase-while-iterating loop delivers one copy to every live listed session and leaves exactly the live ones, in order |
| GameServer.GameServer.BroadcastToAll | server/game/src/main.cpp:490-500 | refines the broadcast step |
| GameServer.GameServer.SimulateMovement | server/game/src/main.cpp:59-69 | every entity is moved once, by what its own keys add at its own heading over 1.28 · 0.05 units, and turned to that heading; nothing else changes |
| GameServer.GameServer.BroadcastPlayerStates | server/game/src/main.cpp:472-488 | the nested loops send every live session one STATE per entity, in view order, and prune once |
| GameServer.GameServer.SaveEveryone | server/game/src/main.cpp:86-96 | the autosave pass equals the fold of saves over the view |
| GameServer.GameServer.UpdateGameWorld | server/game/src/main.cpp:72-97 | moves first, then broadcasts the new positions, then saves them, on ticks 600, 1200, ... only |
| GameServer.GameServer.GameLoopTick | server/game/src/main.cpp:100-120 | the whole tick refines the tick step and counts it |
| GameServer.GameServer.AuthTransaction | server/game/src/main.cpp:359-408 | runs the statements in order; every early exit leaves the tables as they were, success is the admission of the specification |
| GameServer.GameServer.EnterWorld | server/game/src/main.cpp:410-437 | creates the entity with all three components, marks, lists and answers the session |
| GameServer.GameServer.HandleAuth | server/game/src/main.cpp:345-438 | refines the auth step on the server and on the tables |
| GameServer.GameServer.HandleMove | server/game/src/main.cpp:296-315 | records flags and heading of a session in the world, moves nobody |
| GameServer.GameServer.Whisper | server/game/src/main.cpp:511-524 | one copy to exactly the live sessions of that name, dead ones pruned |
| GameServer.GameServer.SayOrYell | server/game/src/main.cpp:525-543 | one copy to exactly the live sessions within the channel's range, dead ones pruned |
| GameServer.GameServer.BroadcastChat | server/game/src/main.cpp:507-551 | refines the chat step, including the silent Guild and unknown channels |
| GameServer.GameServer.HandleChat | server/game/src/main.cpp:317-339 | speaks with the sender's own name and position, or not at all outside the world |
| GameServer.GameServer.ProcessPacket | server/game/src/main.cpp:278-343 | refines the packet step in both session states |
| GameServer.GameServer.Accept | server/game/src/main.cpp:553-562 | a new session waits for auth, owns nothing, is not listed |
| GameServer.GameServer.Drop | server/game/src/main.cpp:144-162 | the destructor posts a destruction exactly when the session owns an entity |
| GameServer.GameServer.RunDestroy | server/game/src/main.cpp:150-160 | a posted destruction saves, removes and announces a valid entity, and does nothing otherwise |
| Strand.Strand.Perform | server/game/src/main.cpp:268-276 | any enabled handler, run on the objects, is one step of the system and restores the ownership invariant |
| Servers.Servers.OnCheck | server/login/src/main.cpp:120-143 | a credential check between any two handlers of the game server is one step of the system, and both servers' objects are in the state it leads to; a token is asked for next, usernames being unique, if and only if the query works and the message has an account's name and a password accepted for it |
| Servers.Servers.OnGrant | server/login/src/main.cpp:145-180 | so is the insertion of the token that the accepted login is waiting for |
| Servers.Servers.Act | server/game/src/main.cpp:268-276 | whatever either server does next, a handler, a pause or half of a login request, is one step of the system on the objects of both |
| Servers.Servers.Run | server/game/src/main.cpp:268-276 | through any schedule of connects, packets, ticks, departures, destructions, pauses, credential checks and insertions the objects of both servers follow the step system, each turn as its event if it is possible then and not at all if it is not |
| Passwords.EntriesHavePasswords | server/login/src/main.cpp:100-143 | through any schedule of both servers, behind every world entry is a login in the schedule with the name of the entry's account and a password the verifier accepts for it, and the accepted checks of an account, of which each entry has its own, are no more than such logins |
| GameConnection.GameConnection.OnPosted | server/game/src/main.cpp:268-276 | a posted packet becomes the next event of its session in the system's run, whatever happened in between, and the read chain and the session agree again |
| GameConnection.GameConnection.OnOther | server/game/src/main.cpp:268-276 | any action of either server that is not this session's leaves that agreement |
| GameConnection.GameConnection.Drive | server/game/src/main.cpp:240-276 | bytes, reads, handlers, closes and read errors of the connection and whatever happens on the two servers, in any order: the objects follow a run of the system, with which the read chain agrees, and every entry of the script that is possible when it comes is taken, as the event or the step of the chain that it is |
| GameConnection.GameConnection.Serve | server/game/src/main.cpp:240-276 | beside all that, the server hears from a client whose only header-only packets are pings the first of what its packets mean, and all of it when all bytes have arrived, nobody cut the connection and its first packet was not one to hang up on |
| GameConnection.GameConnection.ServerHearsClient | server/game/src/main.cpp:240-276 | for a client whose only header-only packets are pings, what the server has heard from the session is what the first of its packets mean, in order, and all of them once all bytes are processed |
| Ownership.PruneKeepsOrder | server/game/src/main.cpp:479-486 | pruning keeps exactly the live sessions, each once, in their order |
| Ownership.RunKeepsOwned | server/game/src/main.cpp:144-162 | every step of every run keeps the ownership invariant |
| Ownership.EveryEntityHasOneOwner | server/game/src/main.cpp:410-417 | in every reachable state a session has an entity exactly when AUTHENTICATED; each entity has one live authenticated session or one posted destruction and not both; the list has no duplicates and its live members are exactly the live authenticated sessions |
| Steering.OnlyItsSessionSteers | server/game/src/main.cpp:310-314 | no event but a tick, its own MOVE or its own disconnect touches a player's entity |
| Steering.TickAppliesLatestMove | server/game/src/main.cpp:296-315 | whatever happens in between, the tick after a MOVE moves the sender from where it stood by what those keys add at that heading over 1.28 · 0.05 units, in coordinates, turns it to the heading and keeps its height |
| Steering.StandsUntilMoved | server/game/src/main.cpp:296-315 | an entity whose keys are up keeps its x, y and z through any ticks and other events until its own session moves it or goes |
| Steering.NewcomerOwns | server/game/src/main.cpp:410-417 | an admission gives the session one new entity with the account's name and character, at the loaded position, facing yaw zero, with no keys held |
| Steering.NewcomerStandsWhereSaved | server/game/src/main.cpp:410-417 | a player who has just entered stands at the loaded position until its first MOVE |
| Identity.NamesAreAccounts | server/game/src/main.cpp:374-413 | in every reachable state an entity's name is the username of the account whose character it plays, and two entities share a name exactly when they share a character |
| Streams.StreamProtocol | server/game/src/main.cpp:278-294 | on every stream of every run: only AUTH_FAILs before AUTH_OK, at most one AUTH_OK, all game traffic after it |
| Streams.PongsArePings | server/game/src/main.cpp:293-295 | in every run a stream has exactly one PONG for each ping of its player that was handled |
| Chats.ChatsAreWellFormed | server/game/src/main.cpp:317-339 | on every stream of every run whose requests were read from packets, a chat is a say, a yell or a whisper, its sender has no NUL and its text at most 255 bytes |
| Streams.EntriesAreConserved | server/game/src/main.cpp:144-162 | world entries = entities still in the world + departures |
| Departures.LeavesAreDepartures | server/game/src/main.cpp:490-500 | in every run the LEAVEs on a live player's stream are exactly the departures since it entered, in order |
| Handoff.TokensAreConserved | server/game/src/main.cpp:377-378 | for every run and token: successful inserts = world entries with it + 1 if its row is still stored |
| Handoff.EntriesMatchChecks | server/login/src/main.cpp:100-162 | every world entry has its own earlier insertion, less than five minutes old, and its own earlier credential check, all for one account; no two entries share either |
| Handoff.RunKeepsTables | server/login/schema/002_sessions_and_characters.sql:9-12 | in every run accounts stay and have at most one character each, named after the account |
| Handoff.AuthIsAllOrNothing | server/game/src/main.cpp:345-417 | an auth packet authenticates if and only if its token is good and no statement fails; otherwise nothing but an AUTH_FAIL on its own stream changes |
| Replica.FoldIdentity | client/src/main.cpp:95-110 | in the world exactly after an AUTH_OK, under the last id given, and then with a local player |
| Replica.FoldMeaning | client/src/main.cpp:115-161 | for every message sequence, a player is tracked if and only if the last message that settles it is a STATE, with that STATE's values |
| Replica.LocalMeaning | client/src/main.cpp:95-135 | the local player is where the last message that placed it says: a STATE under the identity then in force, or an AUTH_OK, which puts it at the origin facing yaw zero |
| Replica.SelfIsNeverRemote | client/src/main.cpp:120-147 | with a single AUTH_OK the local character is never tracked as another |
| Replica.SelfIsRemoteExactly | client/src/main.cpp:95-147 | for every stream, the local character is tracked as another if and only if the last message that settles the identity now in force is a STATE, which then came under another identity |
| Replica.SelfCanBeRemoteAfterTwoAuthOks | client/src/main.cpp:95-110 | a stream with two AUTH_OKs on which it is |
| Replication.ReplicasReflectTheWorld | server/game/src/main.cpp:472-500 | in every reachable state each live player's client tracks only other characters that are in the world, each where one of its entities stands now |
| Replication.ReplicasCompleteAfterTick | server/game/src/main.cpp:472-488 | right after a tick it tracks exactly all of them, duplicates or not, and its own position is the server's |
| Replication.UniqueReplicasAreExact | client/src/main.cpp:115-147 | with unique live characters each tracked position is the server's current one |
| Persistence.OnlyTicksMove | server/game/src/main.cpp:56-69 | whatever packets arrive, an entity's place is reachable by one input per elapsed tick |
| Persistence.SpeedIsBounded | server/game/src/main.cpp:59-69 | after k ticks dist² ≤ 2·(k·1.28·0.05)², and the height is the same, in every run |
| Persistence.AutosaveIsExactIff | server/game/src/main.cpp:86-96 | an autosave without errors leaves every saved position exact if and only if entities sharing a character stand at one point |
| Persistence.TickWritesExactly | server/game/src/main.cpp:72-97 | a tick writes nothing but on ticks 600, 1200, ..., and then each row gets the position of the last entity of its character, in view order, whose save works; a row without one stays |
| Persistence.DestructionSaves | server/game/src/main.cpp:144-162 | a posted destruction removes its entity whether or not its save works; a failing save leaves the tables alone, a working one writes exactly the position |
| Persistence.SavedRowIsRecent | server/game/src/main.cpp:72-97 | in every run without save errors a player's row is where some entity of its character stood, beside the player, no longer ago than the ticks since the last autosave, at most 600 |
| Persistence.PersistenceLagIsBounded | server/game/src/main.cpp:72-97 | so a player whose character is never shared while it is there is at most 600 ticks of movement from its saved position |
| Persistence.AutosaveClosesTheGap | server/game/src/main.cpp:93-95 | at an error-free autosave tick after any run, each row is where some entity of its character stands now, and everybody's row is exact if and only if entities sharing a character stand at one point |
| Duplicates.AutosaveCanMissADuplicate | server/game/src/main.cpp:93-95 | a run from empty tables, two logins of one account, two entries, one MOVE and ticks, after which an autosave leaves a player's position behind |
| Duplicates.DuplicateLagIsUnbounded | server/game/src/main.cpp:72-97 | for every k such a run after which a player is more than k ticks of movement from its saved position |
| Duplicates.DuplicateLagAlwaysGrows | server/game/src/main.cpp:86-96 | from every reachable state in which two players with live and open sessions share a character, for either of them and every k, some further run without failures takes it more than k ticks of movement from its saved position |
| Persistence.ReturnRestoresPosition | server/game/src/main.cpp:144-162 | after a disconnect whose save worked, and any run without that character, the next admission restores exactly x, y and z |
| ChatRouting.PruningIsExact | server/game/src/main.cpp:528-542 | the pruned list is exactly the live players in their old order |
| ChatRouting.DeliveryIsExact | server/game/src/main.cpp:507-551 | exactly the addressed players get exactly one copy with the speaker's own name; nothing else changes but the pruning |
| ChatRouting.SayIsWithinYell | server/game/src/main.cpp:525-543 | whoever hears a Say hears a Yell from there |
| ChatRouting.SpeakerHearsItself | server/game/src/main.cpp:525-543 | the speaker always hears its own Say |
| ChatRouting.HearingIsSymmetric | server/game/src/main.cpp:532-536 | earshot is symmetric |
| Wire.FieldReadsBack | server/game/src/main.cpp:225-227 | a fixed-width field reads back as the first width - 1 bytes of a NUL-free text |
| Wire.ServerBytes | common/include/Protocol.hpp:8-22 | every packet of the servers but chats, byte for byte: size and opcode low byte first, then the packed fields |
| Wire.ClientBytes | common/include/Protocol.hpp:8-22 | every packet of the client but chats, byte for byte |
| Wire.ChatBytes | common/include/Protocol.hpp:33-38 | chats in both directions, byte for byte, with the channel codes |
| Wire.LowByteFirst | common/include/Protocol.hpp:43-46 | numbers go out low byte first |
| Wire.TokenSurvivesHandoff | client/src/main.cpp:69-94 | the token the game server looks up is byte for byte the one printed at login |
| Wire.GamePacketsReadBack | server/game/src/main.cpp:164-196 | AUTH_OK, STATE and LEAVE read back as sent |
| Wire.MovePacketReadsBack | client/src/main.cpp:238-247 | the server reads the flags and heading the client sent |
| Wire.ChatSurvivesRelay | server/game/src/main.cpp:325-338 | a relayed chat keeps the channel, the first 31 bytes of the names and the first 255 bytes of the text |
| Framing.FramesConcat | client/src/NetworkManager.cpp:94-145 | cutting as bytes come in equals cutting the whole |
| Framing.FramesOfEncoded | server/game/src/main.cpp:240-266 | both readers cut the bytes of well-formed packets into exactly those packets |
| Framing.RuntOnClient | client/src/NetworkManager.cpp:98-113 | a size below four makes the client take the header for a packet of its own and go on behind it |
| Framing.RuntOnServer | server/game/src/main.cpp:243-251 | and the game server wait for exactly 65532 + size more bytes |
| Framing.ThreadSafeQueue.TryPop | common/include/ThreadUtility.hpp:31-39 | takes from the front, or nothing when empty |
| Framing.NetworkManager.SendPacket | client/src/NetworkManager.cpp:65-92 | writes the packet's encoding, or drops it when no socket is open |
| Framing.NetworkManager.OnHeader | client/src/NetworkManager.cpp:98-113 | arms the payload read, or pushes the header-only packet with a fresh empty payload |
| Framing.NetworkManager.OnPayload | client/src/NetworkManager.cpp:127-139 | pushes the first packet of the unparsed bytes and leaves the rest |
| Framing.NetworkManager.OnBytes | client/src/NetworkManager.cpp:94-145 | pushes exactly the complete packets of everything unparsed |
| Framing.Deliver | client/src/NetworkManager.cpp:94-145 | after any chunks the queue holds exactly the packets of all bytes so far |
| Framing.ChunkingDoesNotMatter | client/src/NetworkManager.cpp:65-145 | every chunking of well-formed packets delivers exactly them, in order, and a prefix of the bytes a prefix of them |
| ServerReader.CommandsDecide | server/game/src/main.cpp:278-343 | the commands issued determine the effect of a packet on the server and the tables |
| ServerReader.StaleReaderIsFaithfulExactly | server/game/src/main.cpp:240-256 | the reader that keeps an old payload issues the commands of one that clears it if and only if no packet without a payload, read in a phase where its opcode needs n bytes, finds n of them left over |
| ServerReader.PingsAreHarmless | server/game/src/main.cpp:293-295 | in particular when only pings lack a payload |
| ServerReader.StaleMoveIsRepeated | server/game/src/main.cpp:296-315 | a header-only MOVE after a MOVE repeats it |
| ServerReader.SessionReader.OnHeader | server/game/src/main.cpp:240-256 | a header arms exactly the payload read, or posts the packet with the buffer as it was; nothing of the stream is lost |
| ServerReader.SessionReader.OnPayload | server/game/src/main.cpp:258-266 | a payload read posts exactly the packet with its own payload |
| ServerReader.SessionReader.OnPosted | server/game/src/main.cpp:268-276 | the posted packet is processed next, and only then the next read is armed |
| ServerReader.SessionReader.Settle | server/game/src/main.cpp:240-276 | a session open with its chain intact ends up having processed every whole packet, in order |
| ServerReader.Feed | server/game/src/main.cpp:240-276 | whatever the chunks, the handlers in between, and closes or read errors at any time, the packets processed are the first of those the bytes make up, read as the stale reader does; if nobody cuts the connection the commands issued are those for all of them |
| ServerReader.Serve | server/game/src/main.cpp:240-276 | for a client whose only header-only packets are pings: the commands issued are the first of a clean reader's, one per packet; all of them if nobody cuts the connection |
| LogicThread.LogicThread.OnAuthOk | client/src/main.cpp:95-110 | spawns a local entity and takes the id, refining the fold |
| LogicThread.LogicThread.OnState | client/src/main.cpp:115-148 | snaps the local player or gets-or-creates the other's entity, refining the fold |
| LogicThread.LogicThread.OnLeave | client/src/main.cpp:149-161 | destroys the entity and forgets the id, refining the fold |
| LogicThread.LogicThread.HandlePacket | client/src/main.cpp:64-179 | every packet's effect on the registry is the fold's step on its decoding; mapped entities stay valid, distinct and apart from the local one |
| LogicThread.LogicThread.Drain | client/src/main.cpp:63-180 | draining leaves the mailbox empty and the view the fold over what was in it |
| LogicThread.LogicThread.OnConnected | client/src/main.cpp:78-94 | when the connect of any one redirect succeeds, the token of that redirect is the first thing written on the new connection |
| LogicThread.LogicThread.Follow | client/src/main.cpp:78-94 | a redirect first closes the old connection, on which nothing more is sent; if the connect succeeds the token is all that is written on the new one |
| LogicThread.LogicThread.Predict | client/src/main.cpp:184-217 | the local player moves by what the keys add at the camera's heading over 1.28 / 64 units, in coordinates, turns to it and keeps its height; nobody else changes |
| LogicThread.LogicThread.Publish | client/src/main.cpp:224-236 | the snapshot has the local player first, then exactly the tracked players, each once, with their x, y and z |
| LogicThread.LogicThread.RunTick | client/src/main.cpp:59-248 | one turn: drain, predict in coordinates by the keys pressed, publish, and send exactly the keys and heading used for the prediction if a socket is open |
| LogicThread.PredictionStaysLocal | client/src/main.cpp:120-127 | predictions never reach the replica, and a STATE about the local player wipes them out |
| LogicThread.SnapshotIds | client/src/main.cpp:224-232 | exactly one local entry; no id twice if and only if the local character is not tracked as another |
| LogicThread.SnapshotRepeatsExactly | client/src/main.cpp:224-232 | on the stream: an id is repeated if and only if the last message that settles the client's own identity is a STATE |
| Prediction.Turns | client/src/main.cpp:206-217 | k turns with the keys held and the camera still, whatever arrives about others, take the local player as far as one step of k · 1.28 / 64 units |
| Prediction.SideBySide | client/src/main.cpp:206-217 | m turns of the logic thread and n ticks of the game server from one point, with the same keys and heading, end at one point if and only if 5m = 16n or the keys cancel out, at one height and with one heading |
| EndToEnd.StreamReadsBack | client/src/NetworkManager.cpp:94-145 | a server stream survives encoding, any chunking, framing and decoding, sender names cut to 31 bytes |
| EndToEnd.StreamsAreSendable | server/game/src/main.cpp:164-233 | every stream of every run whose requests were read from packets can be sent if and only if its ids and positions fit their fields |
| EndToEnd.Stay | client/src/main.cpp:59-248 | a client that has received a stream, whatever the chunks, keys and camera, has its fold up to the local prediction, with one AUTH_OK shows nobody twice, and has written one MOVE, with that turn's keys and heading, for exactly the turns that found it in the world |
| EndToEnd.WatchTheWorld | client/src/main.cpp:224-236 | in every run, the client of a live player that has received its stream's bytes in any chunks gives the renderer itself first and then only other characters in the world, none twice, each with the x, y and z at which the server has one of its entities now; and right after a tick all of them |
| EndToEnd.ServerHearsKeys | client/src/main.cpp:238-247 | what the server has heard from a redirected client's session is its token and then the first of its keys and headings, in order |
| FrameRing.GpuKeepsInv | client/src/VulkanRenderer.cpp:1349-1457 | whatever the GPU or the presentation engine does next keeps the invariant, at every point of drawFrame |
| FrameRing.CreatedGood | client/src/VulkanRenderer.cpp:1085-1118 | the sync objects start in the invariant for any number of slots and images |
| FrameRing.FenceOrSubmission | client/src/VulkanRenderer.cpp:1349-1352 | at a frame boundary a fence is signalled or has exactly one submission in flight that will signal it |
| FrameRing.AcquireKeepsInv | client/src/VulkanRenderer.cpp:1353-1357 | the semaphore given to acquire is off with nothing pending |
| FrameRing.ResetKeepsInv | client/src/VulkanRenderer.cpp:1369-1371 | fence and command buffer are reset only with nothing in flight for the slot |
| FrameRing.WriteKeepsInv | client/src/VulkanRenderer.cpp:1405-1408 | uniform and command buffer are rewritten only with nothing in flight for the slot |
| FrameRing.SubmitKeepsInv | client/src/VulkanRenderer.cpp:1411-1433 | the submission's fence is free, its wait will be met, its semaphore is not signalled twice |
| FrameRing.PresentKeepsInv | client/src/VulkanRenderer.cpp:1435-1445 | presentation waits for a semaphore that will be signalled, of an image that is held |
| FrameRing.RecreateKeepsInv | client/src/VulkanRenderer.cpp:1653-1693 | with no submission and no presentation waiting, nothing that is destroyed is in use, and the new ring is good whatever the new image count |
| FrameRing.RecreateExactly | client/src/VulkanRenderer.cpp:1653-1693 | with no submission in flight, a rebuild breaks no rule if and only if no presentation still waits |
| FrameRing.RebuiltAnyway | client/src/VulkanRenderer.cpp:1653-1693 | and the ring it leaves is good but for that, whatever still waited |
| FrameRing.DestroyExactly | client/src/VulkanRenderer.cpp:1460-1477 | the same condition for tearing everything down |
| FrameRing.FencesDoNotCoverPresentations | client/src/VulkanRenderer.cpp:1653-1693 | on a run from the created ring, a rebuild at a moment when every fence is signalled and nothing is in flight destroys a swapchain and semaphores in use |
| FrameRing.NoDeadlock | client/src/VulkanRenderer.cpp:1349-1357 | if nothing more can happen, every fence is signalled and every image free but the one on display: the fence wait cannot block for ever, and the acquire cannot exactly if there are two images or nothing is on display |
| FrameRing.LoneImageBlocks | client/src/VulkanRenderer.cpp:1353-1357 | with a single image it does, after one frame |
| FrameRing.EventsUseUpWork | client/src/VulkanRenderer.cpp:1349-1357 | each event uses up work only the renderer can add |
| FrameRing.AtMostOnePerSlot | client/src/VulkanRenderer.cpp:1349-1457 | never more submissions in flight than slots |
| FrameRing.WhichSemaphoreExactly | client/src/VulkanRenderer.cpp:1425-1438 | a frame that signals any image's semaphore signals it a second time if and only if a presentation of that image still waits; with its own image's semaphore a frame breaks no rule |
| FrameRing.SlotSemaphoresAreSignaledTwice | client/src/VulkanRenderer.cpp:1425-1428 | on a run from the created ring, indexing the finished semaphores by slot signals one twice without a wait, indexing by image does not |
| VulkanRenderer.VulkanRenderer.WaitForFence | client/src/VulkanRenderer.cpp:1349-1351 | the fence wait returns under every completion order, with the slot free |
| VulkanRenderer.VulkanRenderer.WaitForImage | client/src/VulkanRenderer.cpp:1353-1357 | so does the wait for an image |
| VulkanRenderer.VulkanRenderer.AcquireNextImage | client/src/VulkanRenderer.cpp:1353-1366 | out of date, exactly if the driver says so, with nothing changed, or some free image once there is one |
| VulkanRenderer.VulkanRenderer.RecreateSwapchain | client/src/VulkanRenderer.cpp:1653-1693 | given an idle wait that covers presentations: the next swapchain, every image free and blank, nothing in flight, every fence signalled |
| VulkanRenderer.VulkanRenderer.Prepare | client/src/VulkanRenderer.cpp:1369-1408 | the slot's buffers hold this frame's scene and image |
| VulkanRenderer.VulkanRenderer.SubmitAndPresent | client/src/VulkanRenderer.cpp:1411-1445 | exactly one submission, for this slot, image and scene, and one presentation, back at a good frame boundary |
| VulkanRenderer.VulkanRenderer.DrawFrame | client/src/VulkanRenderer.cpp:1324-1458 | breaks no rule under any interleaving; draws exactly if no resize was asked for and the acquire is not out of date, submitting and presenting its scene once, moving to the next slot and rebuilding the swapchain exactly if the presentation is out of date; otherwise returns early with the next swapchain, nothing in flight, nothing submitted and the same slot next |
| VulkanRenderer.VulkanRenderer.Run | client/src/VulkanRenderer.cpp:1324-1458 | over any number of frames: the scenes submitted and presented are those of the frames neither resized nor out of date at the acquire, in order, the swapchain is rebuilt once per frame that asks for it, no violation, at most one submission per slot, and every image on display shows one scene whole |
| VulkanRenderer.VulkanRenderer.Cleanup | client/src/VulkanRenderer.cpp:1460-1477 | given an idle wait that covers presentations, nothing is destroyed in use |

## Left out

- IEEE floating point and the real sine and cosine: positions are reals and a heading is kept as its sine and cosine with s² + c² = 1, so a stored or sent angle is such a pair.
- Sockets, resolvers, timers, threads and core pinning: a stream is a growing list, a tick is a step, and each write is one append. The server starts overlapping writes on one socket; that their bytes do not mix is an assumption.
- A strong reference taken while a broadcast loop runs can be the last one; here a session goes only between strand steps.
- Replication.ReplicasReflectTheWorld: speaks of a client that has read its whole stream; bytes still on the way are EndToEnd's business.
- EndToEnd.Stay: takes any stream that can be sent; EndToEnd.StreamsAreSendable says which of the server's those are.
- EndToEnd.WatchTheWorld: positions are assumed to survive their sixteen bytes and ids to fit 32 bits; usernames, of type VARCHAR, hold no NUL. A name of 32 bytes, which VARCHAR(32) allows, arrives without its last byte.
- Handoff.EntriesMatchChecks: the five minutes are counted from the token's insertion, as the database does; the password check precedes it by as long as the login handler takes.
- Persistence.PersistenceLagIsBounded: assumes that nobody else plays the character while the player is there; the code does not prevent it, and with it there is no bound (Duplicates.DuplicateLagAlwaysGrows).
- Persistence.SavedRowIsRecent: assumes that no save hits a database error.
- Database.AdmittedExactly: a commit that fails is taken to have had no effect; a lost acknowledgement of a commit that worked is not modelled. Sequence ids are chosen by the environment, so a used id may be offered and the INSERT then fails.
- The tick counter and entity ids are unbounded; the 32-bit counter wraps after years of ticks. Entity ids are never reused.
- Character ids are naturals; the sign check in save_character and the cast to 32 bits on sending are not modelled.
- GameServer.GameServer.GameLoopTick: the running flag, cleared at shutdown, and the re-arming of the timer.
- VulkanRenderer.VulkanRenderer.DeviceWaitIdle: taken to wait until no presentation waits for its semaphore any more, which vkDeviceWaitIdle does not promise; that RecreateSwapchain, DrawFrame, Run and Cleanup destroy nothing in use rests on it, exactly as FrameRing.RecreateExactly and FrameRing.DestroyExactly say.
- VulkanRenderer.VulkanRenderer.RecreateSwapchain: the surface's limits are taken to allow two images.
- View iteration orders are parameters; any order in which every entity comes once is allowed.
- Tick 0, called from main before the strand runs ticks, is the first tick step like any other.
- Argon2, PostgreSQL and EnTT themselves: a verifier function, atomic transactions over maps, a set of valid ids with one map per component.
- Malformed size fields on the login connection, names without a terminating NUL, and host byte order.
- Framing.NetworkManager.OnBytes: read errors and disconnects of the client end the stream and are not modelled; nor is whether the reconnect after a redirect succeeds, since a late end-of-stream handler may close the new socket.
- LogicThread.LogicThread.Drain: the mailbox is drained at one instant; packets pushed meanwhile count for the next turn.
- The outcome of an auth attempt in module ServerReader: one verdict per packet; in GameConnection it is the strand's.
- FrameRing.NoDeadlock: that the GPU finishes what it started and that the presentation engine gives back every shown image but the newest is assumed; both are events that stay enabled. An engine that keeps more images needs a larger minimum.
- VulkanRenderer.VulkanRenderer.DrawFrame: thrown errors, the null-device check, window minimising, camera mathematics and the recording of draw calls are not modelled.
- All other Vulkan set-up, input, fullscreen handling, logging, main functions and build files.

# subraum: a verified model of the voice mesh and its signaling server

subraum is an encrypted peer-to-peer push-to-talk system. Clients form a full WebRTC mesh, found
through a small signaling server; pairwise sessions with a post-quantum handshake carry chat and the
group-audio key; audio frames are sealed once under that shared key and fanned out. This project models
the stateful parts of the client core and of the server and proves what they keep over whole runs.

Run `dafny verify dfyconfig.toml` in this directory.

## How the model is built

Every object that the program updates in place is a class whose methods are proved against functions on
a value (`Session` against `State`, `RoomKeyCoordinator` against `Coord`, `SignalServer` against
`Server`, and so on). Whole runs and protocols are then sequences of those functions, and the main
theorems are lemmas about such runs.

| files | content |
|---|---|
| `RoomAudio.dfy`, `RoomKeys.dfy`, `Engine.dfy`, `Convergence.dfy`, `ConvergenceBound.dfy`, `Departure.dfy` | the group-audio key: ring of keys, coordinator, engine loop with departures, the whole mesh with messages in flight, the exact bound under which it agrees, and the mesh after a member has left |
| `Handshake.dfy`, `Session.dfy`, `Aead.dfy` | pairwise handshake, counter nonces and the replay window; the cipher as a log of what was sealed |
| `Signaling.dfy`, `Delivery.dfy`, `Pins.dfy`, `RateLimit.dfy` | the signaling server's rooms, who is sent what and who may join, PIN-protected codes, and the per-address limiter |
| `Links.dfy`, `Glare.dfy` | offers and answers over the states of section 3.2 of RFC 8829 |
| `Directory.dfy`, `Gossip.dfy` | the shared channel list with tombstones, and its spread over a connected graph |
| `Resampler.dfy`, `AudioPipeline.dfy` | resampler, re-blocking and refill loops |
| `Ids.dfy`, `Words.dfy`, `Wrappers.dfy`, `Counting.dfy` | identifiers, machine words, options, counting in windows of time |

Idealisations: a cipher text opens only if it was sealed with the same key, nonce and associated data
(`Aead.Ideal`); fresh keys are numbered by a mint counter; the handshake's primitives agree at both ends
its hash has no collisions and its key derivation
separates labels and keying material (`Handshake.Ideal`); times are natural numbers that do not run backwards;
resampling is exact, on rationals scaled by the output rate; ids are strings whose characters stand for
bytes.

## What the proofs found

- A node accepts keys and reports only up to 1024 generations ahead. A room whose authority joins late
  agrees on every run exactly when no member is beyond generation 1023
  (`ConvergenceBound.ConvergesIff`). At 1024 the authority's first key can be 1025, which a member
  without a key refuses; having nothing to report, it stays silent for good. Above 1024 a report that
  is processed first is ignored and the authority begins at 1
  (`ConvergenceBound.TooFarAheadMayDisagree`).
- At generation 2^32 - 1 a rotation is refused and the departed member's key stays in use. Such a state
  is reached by a run in which every assumption holds (`Engine.SaturationIsReachable`), though not in
  the first four million events (`RoomKeys.MintsStrictlyFresh`). A departure is answered with a new key
  exactly when the counter is below its maximum or the key replaced carries a larger id
  (`Engine.DepartureIsAnsweredIff`).
- When the authority itself leaves, its successor's key can reach a member before the server's notice of
  the departure. The member still counts the old, smaller id and refuses the key, which is not sent
  again. A room that agreed agrees again in every order of delivery exactly when the one who left was
  not the authority (`Departure.AgreesAgainIff`); if every member hears of the departure before it gets
  the key, it always does (`Departure.RoomAgreesAgain`).
- A rotation on arrival happens only for a join notice. An arrival that the authority learns from a
  roster, after its own signaling reconnect, brings no rotation unless somebody also left, and the
  newcomer is handed the key from before it came (`Engine.RosterArrivalGetsTheOldKey`).
- The send counter wraps, so nonces repeat exactly from the 2^64th frame on (`PairSession.NoncesDistinctIff`).
- If one side rebuilds a link twice before the signals drain, the first answer completes the second
  offer, the second answer is refused, and the two ends disagree (`Glare.TwoRebuildsNeedNotAgree`); with
  at most one rebuild each they always agree.
- The comment on tombstones says the set could otherwise grow for ever; the cap binds only peers'
  deletions. With k local deletions 256 + k tombstones are possible and no more, so the cap holds on all
  runs with at most k of them exactly when k is 0 (`Directory.CapHoldsIff`).
- The length of the encapsulation key is not in the handshake transcript. Two exchanges whose keys
  differ in length by a byte share a transcript (`Handshake.TranscriptsCollideAcrossLengths`); the
  length check in `respond` is what rules that out (`Handshake.SameFingerprintMeansMirrored`).
- A lock opens before its ten minutes are over exactly if it begins in the last 600 seconds of the u64
  clock (`Pins.LockOpensEarlyIff`), so the PIN bounds assume earlier times.
- `rekey` says it re-handshakes every link; it closes the connections but leaves the pairwise sessions
  in place until the new channel's handshake replaces them (`Links.Mesh.Rekey`).

## Model

| member | source | states |
|---|---|---|
| GroupAudio.RoomAudio.Stage | apps/companion-core/src/crypto.rs:525-541 | a key strictly better than the current one is taken and the one it replaces kept for opening; anything else changes nothing and is reported as refused |
| GroupAudio.RoomAudio.Promote | apps/companion-core/src/crypto.rs:545-556 | sealing switches to the newest held key of that generation, or stays as it is when none is held |
| GroupAudio.RoomAudio.Install | apps/companion-core/src/crypto.rs:558-570 | staging followed at once by promotion, only if the key was taken |
| GroupAudio.StagingKeepsTheMaximum | apps/companion-core/src/crypto.rs:525-541 | after any sequence of stages the current key is one of the highest generation and, among those, of the smallest authority |
| GroupAudio.StagingIsConfluent | apps/companion-core/src/crypto.rs:525-541 | the same keys staged in any order and with any repetition leave the same current key |
| GroupAudio.RingIsLastThreeRecords | apps/companion-core/src/crypto.rs:525-541 | the keys held for opening are exactly the last three that were accepted, newest first |
| GroupAudio.StagingPushes | apps/companion-core/src/crypto.rs:525-541 | an accepted key goes in front, the oldest falls out, and the order stays strictly descending |
| GroupAudio.SealedFrameOpensIff | apps/companion-core/src/crypto.rs:574-618 | a sealed frame opens, to what was sealed, if and only if its key is among the held ones and the claimed sender is the real one |
| GroupAudio.RoomAadInjective | apps/companion-core/src/crypto.rs:452-457 | the associated data names the sender: two senders never share it |
| GroupAudio.RawOnlyBeforeAnyKey | apps/companion-core/src/crypto.rs:574-618 | before any key is staged a frame goes out raw and comes in as it went out; with a key neither happens |
| RoomKeys.RoomKeyCoordinator.Adopt | apps/companion-core/src/lib.rs:252-269 | staging through the coordinator: the counter follows, the first key is promoted at once, later ones become due for promotion |
| RoomKeys.RoomKeyCoordinator.Rotate | apps/companion-core/src/lib.rs:274-286 | a mint one above the counter, and the resulting current key addressed to every secure peer |
| RoomKeys.RoomKeyCoordinator.OnSecure | apps/companion-core/src/lib.rs:295-318 | the authority mints a first key if it has none and hands over its key; a member reports its generation to the authority only |
| RoomKeys.RoomKeyCoordinator.OnRoomKey | apps/companion-core/src/lib.rs:324-334 | the received key is adopted, and reported as taken, as the next rows say |
| RoomKeys.KeysComeFromTheAuthority | apps/companion-core/src/lib.rs:324-334 | a received key changes a node only if its sender is smaller than the node and every other member, and then it is that key, at most 1024 generations ahead |
| RoomKeys.TheAuthorityIsBelieved | apps/companion-core/src/lib.rs:324-334 | every such key that is better than the current one does become the current one |
| RoomKeys.EveryHeldKeyIsLegitimate | apps/companion-core/src/lib.rs:252-357 | over every run, each key a node holds for opening or sealing is its own draw or came from the least id of the room as the node saw it on arrival |
| RoomKeys.ReportsAreHeededIff | apps/companion-core/src/lib.rs:340-357 | a report changes a node if and only if it is the least of the room and a member reports 1 to 1024 generations more |
| RoomKeys.SessionsMintIff | apps/companion-core/src/lib.rs:295-309 | a session coming up mints if and only if the node is the least of the room and holds no key |
| RoomKeys.RoomKeyCoordinator.OnRoomGen | apps/companion-core/src/lib.rs:340-357 | a report is acted on only by the authority, from a member, above the counter and within the bound; then it rotates above it |
| RoomKeys.RoomKeyCoordinator.OnPromotionDue | apps/companion-core/src/lib.rs:259-268 | promotions arrive in adoption order and each promotes its own generation |
| RoomKeys.RotationIsFreshIff | apps/companion-core/src/lib.rs:274-286 | a rotation stages a newly drawn key if and only if the counter is below its maximum or the key replaced carries a larger id |
| RoomKeys.SealingNeverRegresses | apps/companion-core/src/lib.rs:252-357 | over every run the send key only moves forward in the order keys are adopted, ties of generation included, and is never lost |
| RoomKeys.NeverRawAgain | apps/companion-core/src/crypto.rs:574-618 | once any key has been staged no raw frame is emitted or accepted, whatever events follow |
| RoomKeys.GenerationAccounting | apps/companion-core/src/lib.rs:252-357 | in every reachable state the counter is the staged generation, or 0 without a key, and is at most 1025 times the number of events |
| RoomKeys.MintsStrictlyFresh | apps/companion-core/src/lib.rs:274-286 | for the first 4,190,211 events of any run a rotation stages its new key, one generation up and better than every key held |
| RoomKeys.MintsNewBytes | apps/companion-core/src/lib.rs:274-286 | if nobody sends bytes this node has yet to draw, the bytes of its next draw were never held or received in the run before |
| Engine.EngineLoop.OnRoster | apps/companion-core/src/lib.rs:1074-1117 | the roster replaces the membership, and the authority rotates exactly if somebody known is gone from it |
| Engine.EngineLoop.OnPeerJoined | apps/companion-core/src/lib.rs:1118-1136 | the newcomer is a member before the authority check, which rotates only when a key exists |
| Engine.EngineLoop.OnPeerLeft | apps/companion-core/src/lib.rs:1137-1152 | the departed is out before the authority check, so a node that becomes authority by it rotates, and hands the new key out as NewKeysReachEveryone says |
| Engine.EngineLoop.OnRekey | apps/companion-core/src/lib.rs:1164-1176 | a requested rekey rotates at the authority and does nothing to the key elsewhere |
| Engine.EngineLoop.OnSecure | apps/companion-core/src/lib.rs:1282-1298 | the coordinator's decision under the engine's current membership |
| Engine.EngineLoop.OnRoomKey | apps/companion-core/src/lib.rs:1299-1306 | a key is judged under the engine's current membership |
| Engine.EngineLoop.OnRoomGen | apps/companion-core/src/lib.rs:1307-1315 | a report is judged under the engine's current membership and answered to the peers with sessions |
| Engine.NewKeysReachEveryone | apps/companion-core/src/lib.rs:1074-1176 | whenever a change of the room or a report leaves another key staged, every peer with a session is sent exactly that key, and nobody anything else |
| Engine.ChangesBringNewKeys | apps/companion-core/src/lib.rs:1112-1176 | below the top of the counter, a departure, a rekey, or a join once there is a key stages a newly drawn key at the least id of the room and changes no other node |
| Engine.SessionsAreServed | apps/companion-core/src/lib.rs:295-318 | a session brings the peer the authority's key, or the authority a member's generation, and nothing otherwise |
| Engine.NodesHoldLegitimateKeys | apps/companion-core/src/lib.rs:1074-1315 | the legitimacy of every held key, for whole runs of the engine with the membership it keeps |
| Engine.RosterArrivalGetsTheOldKey | apps/companion-core/src/lib.rs:1074-1117 | an arrival learnt from a roster that reports no departure leaves the key, and the newcomer's session is handed it |
| Engine.ForwardSecrecy | apps/companion-core/src/lib.rs:1074-1151 | in every reachable state of a node that is authority, its staged key is its own, drawn after the latest departure and the latest join notice it processed, and was handed to nobody who is not a member now |
| Engine.NoKeyForTheDeparted | apps/companion-core/src/lib.rs:1074-1151 | no event of any run hands out a key older than the latest departure or join notice, or any key to an id that left and has not come back |
| Engine.ShortRunsAreAdmissible | apps/companion-core/src/lib.rs:274-286 | the counter hypothesis of the two theorems above holds by itself for 4,190,211 events |
| Engine.AudioIsSealedAnew | apps/companion-core/src/lib.rs:1074-1151 | once no promotion is outstanding at an authority, the key it seals audio with is its own, younger than the latest departure it processed, and known to present members only |
| Engine.DepartureIsAnsweredIff | apps/companion-core/src/lib.rs:274-286 | a departure leaves a key drawn after it if and only if the counter is below its maximum or the key replaced carries a larger id |
| Engine.SaturatedRotationKeepsTheOldKey | apps/companion-core/src/lib.rs:274-286 | at the top of the counter forward secrecy fails: the rotation after a departure is refused |
| Engine.SaturationIsReachable | apps/companion-core/src/lib.rs:1118-1176 | a run within all hypotheses ends at the top with a member holding the staged key; that member leaves and still holds the key in use |
| Convergence.LateAuthorityConverges | apps/companion-core/src/lib.rs:252-357 | for any number of nodes and any interleaving: a run takes boundedly many steps, cannot stop with work left, and once the messages are gone every node holds the authority's key, at generation at most max(1, largest initial generation + 1) |
| Convergence.AgreedNodesHearEachOther | apps/companion-core/src/crypto.rs:574-618 | in a settled mesh any frame any node seals opens at every other, as what was sealed and from whom |
| Departure.RoomAgreesAgain | apps/companion-core/src/lib.rs:1137-1152 | a room that agreed and loses a member agrees on the key minted after it once all is delivered and promoted: in any order if the authority stays, and otherwise if each node hears of the departure before it gets the key |
| Departure.AgreesAgainIff | apps/companion-core/src/lib.rs:139-144 | in a room of three or more, every order of delivery ends in agreement if and only if the one who left was not the authority |
| ConvergenceBound.ConvergesIff | apps/companion-core/src/lib.rs:324-357 | every room converges on every run if and only if no initial generation exceeds 1023 |
| ConvergenceBound.TooFarAheadMayDisagree | apps/companion-core/src/lib.rs:324-357 | for every generation from 1024 on, a three-node room with a member at it and a run that settles in disagreement |
| PairSession.Session.Seal | apps/companion-core/src/crypto.rs:227-241 | the frame carries the counter, which advances with wrap-around, and only that changes |
| PairSession.Session.Open | apps/companion-core/src/crypto.rs:243-258 | a frame that is short, replayed or not authentic yields nothing and changes nothing; otherwise its counter is marked |
| PairSession.Session.Mark | apps/companion-core/src/crypto.rs:271-283 | the bitmap shifts by the advance, empties at 64 or more, and sets the bit of the accepted counter |
| PairSession.MarkTracks | apps/companion-core/src/crypto.rs:271-283 | marking keeps bit d set exactly when the counter d below the maximum was accepted, with nothing set beyond counter 0 |
| PairSession.ReplayOkIff | apps/companion-core/src/crypto.rs:261-269 | a counter passes if and only if it was not accepted before and lies less than 64 behind the maximum |
| PairSession.WindowRefinesAcceptedSet | apps/companion-core/src/crypto.rs:261-283 | in every reachable state the bitmap stands for the set of accepted counters and decides as that set does |
| PairSession.OpenedWasSent | apps/companion-core/src/crypto.rs:243-258 | whatever opens is a frame the other side sealed with that kind, counter and text |
| PairSession.ReflectedFrameNeverOpens | apps/companion-core/src/crypto.rs:227-258 | with different keys for the directions, a frame sent back to the end that sealed it does not open there under any kind |
| PairSession.AtMostOnceDelivery | apps/companion-core/src/crypto.rs:227-258 | with an adversary delivering anything in any order, what one side opened maps injectively to frames the other side sealed, of the same kind |
| PairSession.AuthenticFrameAcceptedIff | apps/companion-core/src/crypto.rs:243-283 | an authentic frame is accepted exactly if unseen and less than 64 behind, and is then intact |
| PairSession.NoncesDistinctIff | apps/companion-core/src/crypto.rs:219-241 | the nonces of a direction are pairwise distinct if and only if at most 2^64 frames were sealed |
| Handshake.TranscriptInjective | apps/companion-core/src/crypto.rs:85-97 | with encapsulation keys of one length, the transcript determines both ids and both messages |
| Handshake.TranscriptsCollideAcrossLengths | apps/companion-core/src/crypto.rs:85-97 | without that, every exchange shares its transcript with one whose key is a byte longer |
| Handshake.PeerCrypto.Start | apps/companion-core/src/crypto.rs:311-319 | only the smaller id opens a handshake, and doing so drops the session held |
| Handshake.PeerCrypto.TakeHello | apps/companion-core/src/crypto.rs:323-335 | only the larger id answers, only a key of the right length, and then holds a session whose keys the rows below are about |
| Handshake.PeerCrypto.TakeReply | apps/companion-core/src/crypto.rs:339-348 | a reply completes a pending handshake once and a malformed one uses it up; the session's keys are what the rows below are about |
| Handshake.PeerCrypto.Drop | apps/companion-core/src/crypto.rs:368-371 | session and pending handshake of a peer are both forgotten |
| Handshake.DirectionsDiffer | apps/companion-core/src/crypto.rs:101-124 | the two directions of a derived session never share a key |
| Handshake.SecretsSeparateKeys | apps/companion-core/src/crypto.rs:71-124 | another X25519 secret, another ML-KEM secret or another exchange gives keys that differ in both directions: both secrets count |
| Handshake.SessionKeysDiffer | apps/companion-core/src/crypto.rs:311-371 | whatever the network did, every session a node holds has different keys for its directions and prefixes of the nonce's length |
| Handshake.FingerprintOpensTwoChannels | apps/companion-core/src/crypto.rs:101-258 | two ends showing one fingerprint have a frame channel in each direction, to which all that is proved of channels applies, and an end never opens a frame it sealed itself |
| Handshake.SameFingerprintMeansMirrored | apps/companion-core/src/crypto.rs:85-124 | whatever the network dropped, forged or reordered, two ends showing one fingerprint send with exactly what the other receives with |
| Handshake.FingerprintsNameThePair | apps/companion-core/src/crypto.rs:207-217 | an initiator's and a responder's session share a fingerprint only if they are of one pair and saw the same two messages, so a message changed in the middle shows |
| Handshake.HonestExchangeSecures | apps/companion-core/src/crypto.rs:132-166 | an undisturbed exchange leaves both ends secure, mirrored and showing one fingerprint, whatever either held before |
| Signaling.SignalServer.Receive | server/init/src/main.rs:1082-1110 | the frame window, the two answers to malformed text, and dispatch; the room invariant holds afterwards |
| Signaling.SignalServer.Join | server/init/src/main.rs:1113-1164 | the refusals in the program's order, each closing the connection except a second join; otherwise the entry |
| Signaling.SignalServer.Enter | server/init/src/main.rs:1146-1204 | supersede, newcomer notice to the others, roster first to the newcomer, warning from twelve members on, relay credentials last if configured |
| Signaling.SignalServer.RelayTo | server/init/src/main.rs:1301-1314 | the relay's effect on the server, judged frame by frame in EventsSendExactly and RelayedFramesAreGenuine |
| Signaling.SignalServer.AskRekey | server/init/src/main.rs:1240-1262 | within the cooldown nothing; else the time is recorded and the whole room told, even for a room that is gone |
| Signaling.SignalServer.SendPtt | server/init/src/main.rs:1225-1239 | talk state goes to everyone in the room but the sender |
| Signaling.SignalServer.Cleanup | server/init/src/main.rs:1270-1288 | a closing connection takes its member out only if the room still holds its own handle; the last one takes the room and its cooldown along |
| Signaling.EveryRunKeepsRooms | server/init/src/main.rs:1146-1288 | in every reachable state each handle belongs to a live connection joined as that member, rooms hold 1 to 16, and every client's folded frames agree with its room |
| Signaling.RosterAgreement | server/init/src/main.rs:1146-1288 | for any run and any handle: its connection owns no other handle, and the Roster, PeerJoined and PeerLeft frames sent to it fold to exactly the room's id-to-name map without itself |
| Signaling.StaleCloseChangesNothing | server/init/src/main.rs:1270-1288 | closing a connection without a handle changes no room, no cooldown and no other connection |
| Signaling.SupersededOwnsNothing | server/init/src/main.rs:1166-1177 | after a takeover the replaced connection is of that kind |
| Signaling.AllClosedMeansNoRooms | server/init/src/main.rs:1270-1288 | when every connection is closed the room table is empty |
| Signaling.RekeysAreSpaced | server/init/src/main.rs:1240-1262 | while a room stays occupied, a rekey at time t closes the cooldown guard until t plus five seconds, over every run and whoever asks |
| Delivery.RekeyFramesAreSpaced | server/init/src/main.rs:1240-1262 | until then nobody who has joined the room is sent another rekey frame, whatever this or any other room does |
| Delivery.RekeysKeepTheirDistance | server/init/src/main.rs:1240-1262 | in particular for five seconds after any rekey frame that goes out |
| Delivery.EmptiedRoomsForgetTheirRekey | server/init/src/main.rs:1279-1282 | a room that empties takes its cooldown with it |
| Delivery.EventsSendExactly | server/init/src/main.rs:1207-1262 | every event sends every connection exactly the relayed, talk and rekey frames the rooms call for: to the addressee, to the others, to the whole room, stamped with the sender's id or name and within the size limits |
| Delivery.RelayedFramesAreGenuine | server/init/src/main.rs:1301-1314 | over every run, each relayed frame a connection was ever sent was asked for in those words by a live connection joined under the stamped id, for this connection's member of the same room |
| Delivery.EntrySends | server/init/src/main.rs:1146-1204 | a join sends the newcomer the roster first, then warning and credentials, the others the newcomer's name and the warning, and the connection it replaces that it is superseded, and nobody else anything |
| Delivery.JoinsAreDecided | server/init/src/main.rs:1113-1204 | exactly a join of the right version, well-formed, with a valid token, and whose id is its own by secret or fits in the room, gets the handle; any other is told the first thing wrong with it and cut off |
| Delivery.HandlesComeFromJoins | server/init/src/main.rs:1146-1204 | no other event creates or changes a handle |
| Delivery.TakeoversKnowTheSecret | server/init/src/main.rs:1155-1177 | over every run, a handle keeps its secret for as long as it is held, so only who presents it takes the connection over |
| Delivery.EndedConnectionsLetGo | server/init/src/main.rs:1263-1288 | a connection that closes, times out or leaves is shut and holds no handle any more |
| Delivery.UnparsedTextIsAnswered | server/init/src/main.rs:1097-1110 | text that does not parse is answered, and ends a connection that was trying to join |
| Delivery.TooFastIsIgnored | server/init/src/main.rs:1087-1096 | a frame beyond fifty in its window moves the count and nothing else |
| Delivery.TalkIsLimited | server/init/src/main.rs:1087-1096 | over every run at most fifty frames of a connection are acted on in any of its windows, and 50 (T / 1001 + 2) in any closed interval of T milliseconds |
| Pins.CtEq | server/init/src/sessions.rs:70-79 | the comparison without early exit is equality |
| Pins.Sessions.Create | server/init/src/sessions.rs:83-103 | a new code starts with a full guess budget and no other code is touched |
| Pins.Sessions.JoinAt | server/init/src/sessions.rs:108-128 | unknown codes are not found; otherwise the one session is answered and changed as the next two rows say, and no other code is touched |
| Pins.LockedAnswerIgnoresThePin | server/init/src/sessions.rs:111-114 | while six wrong PINs are being sat out, every PIN, the right one included, gets the same refusal and changes nothing |
| Pins.OnlyTheRightPinIsAdmitted | server/init/src/sessions.rs:116-127 | outside the lock exactly the right PIN is admitted, and it keeps the session alive |
| Pins.Sessions.Reap | server/init/src/sessions.rs:132-144 | exactly the sessions under the age cap that are occupied or within the grace period remain |
| Pins.PinGuessBound | server/init/src/sessions.rs:108-128 | whatever is tried on a session, the wrong PINs that had any say in the answer or its effect, which are those compared, number at most 6 (T / 600 + 1) in any closed interval of T seconds |
| Pins.TableGuessBound | server/init/src/sessions.rs:108-144 | the same for one code in the table, amid creations, joins and sweeps of all the others |
| Pins.LifetimeGuessBound | server/init/src/sessions.rs:108-144 | with sweeps at most a minute apart a session takes at most 870 wrong guesses in its life |
| Pins.TableLifetimeBound | server/init/src/sessions.rs:108-144 | the same for one code in the table, amid everything that happens to the others |
| Pins.LockOpensEarlyIff | server/init/src/sessions.rs:111-115 | a lock opens before its time if and only if it began less than 600 seconds before the end of the u64 clock |
| Pins.TooOldIsGone | server/init/src/sessions.rs:132-144 | the first sweep a day after creation ends a session for good, however busy it is |
| Pins.SessionEndsIff | server/init/src/sessions.rs:132-144 | a sweep spares a session if and only if it is under a day old and its room is occupied or was seen, or entered with the right PIN, within five minutes; nothing else ends one |
| Pins.TableRunsLives | server/init/src/sessions.rs:81-144 | in the table each session lives as it would alone |
| RateLimit.RateLimiter.Allow | server/init/src/main.rs:138-147 | the decision and the one counter it updates |
| RateLimit.PruningIsUnobservable | server/init/src/main.rs:136-152 | dropping expired counters, at any times, changes no decision of any run |
| RateLimit.CallsAreLimited | server/init/src/main.rs:128-151 | of one address's calls with a limit of at most n, at most n pass in any window and n (T / window + 2) in any closed interval of T seconds, whatever else is called or pruned |
| RateLimit.RefusedOnlyWhenBusy | server/init/src/main.rs:138-147 | a call is refused only if its address made as many others as its limit less than a window before |
| Links.Mesh.OnPeer | apps/companion-core/src/mesh.rs:463-475 | the smaller id rebuilds and offers, dropping the pairwise session; the larger only makes sure a connection exists |
| Links.Mesh.Relink | apps/companion-core/src/mesh.rs:493-519 | rebuilds and offers whatever the ids, unless a negotiation with a remote description is still running |
| Links.Mesh.OnOffer | apps/companion-core/src/mesh.rs:533-566 | the smaller id ignores an offer while its own is out; anyone else answers from a connection that was never negotiated |
| Links.Mesh.OnAnswer | apps/companion-core/src/mesh.rs:568-574 | an answer completes an outstanding offer and is otherwise without effect |
| Links.Mesh.Rekey | apps/companion-core/src/mesh.rs:604-616 | exactly one new offer to each larger id, on a link built for it; smaller ids' links and all pairwise sessions stay |
| Links.Mesh.Perform | apps/companion-core/src/lib.rs:1109-1154 | each of the engine's calls on a link does to it, and sends, what the two-sided model says |
| Links.RekeyOffersOncePerPair | apps/companion-core/src/mesh.rs:598-616 | when all n nodes of a full mesh have run the rekey, n(n-1)/2 offers have been sent, and between any two nodes exactly one, made by the smaller id, addressed to the larger and the one its link is built on |
| Glare.OneRoundConverges | apps/companion-core/src/mesh.rs:463-575 | from a quiescent pair, with at most one rebuild a side, every interleaving ends within seven steps with both ends settled on one offer, the smaller id's if the two crossed; a run stops only when nothing is in flight |
| Glare.RunsAreShort | apps/companion-core/src/mesh.rs:463-575 | for any number of rebuilds no run of one pair is longer than its measure: no answer loop exists |
| Glare.TwoRebuildsNeedNotAgree | apps/companion-core/src/mesh.rs:533-575 | whenever two rebuilds are allowed some run ends with the ends on different answers |
| Glare.RunningNegotiationIsLeftAlone | apps/companion-core/src/mesh.rs:493-512 | with both descriptions in place, the watchdog may look any number of times while ICE runs and changes nothing |
| Glare.LostOffersAreRetried | apps/companion-core/src/mesh.rs:501-519 | a link without the other's description, or that is over, is offered anew at the first look |
| Directory.ChannelBook.MergeChannels | apps/companion-core/src/lib.rs:362-378 | the merge loop against its specification, and its result tells exactly whether the list grew |
| Directory.ChannelBook.TakePeerChannels | apps/companion-core/src/lib.rs:1248-1262 | tombstoned names are dropped, the rest merged, and the whole list passed on exactly if it grew |
| Directory.ChannelBook.TakePeerChannelRemoved | apps/companion-core/src/lib.rs:1263-1281 | a peer's deletion is honoured, tombstoned and passed on only for a listed, unused, untombstoned name that is not the base channel, and below the cap |
| Directory.ChannelBook.Switch | apps/companion-core/src/lib.rs:1355-1375 | trimming, clamping and the default name; the tombstone is lifted before the merge; announce, then share on growth |
| Directory.ChannelBook.Remove | apps/companion-core/src/lib.rs:1376-1391 | a local deletion needs an unused name that is not the base channel, and nothing else |
| Directory.GrowsIff | apps/companion-core/src/lib.rs:362-378 | a list grows if and only if it has room and is offered a usable name it lacks |
| Directory.MergeTakesAll | apps/companion-core/src/lib.rs:362-378 | nothing offered and usable is left out unless the list ends full, and nothing else gets in |
| Directory.EveryRunKeepsGood | apps/companion-core/src/lib.rs:1248-1391 | over every run the list is free of canonical duplicates, at most 64 long, holds the base channel and no tombstoned name, and neither the base nor my own channel is tombstoned |
| Directory.DeletedStaysDeleted | apps/companion-core/src/lib.rs:1248-1262 | a deleted channel stays out whatever peers send, until this client itself switches to it |
| Directory.OccupiedChannelsStay | apps/companion-core/src/lib.rs:442-445 | no event takes a channel off the list, or tombstones it, while anybody is tuned to it |
| Directory.ListedWhileOccupied | apps/companion-core/src/lib.rs:1263-1391 | over every run a listed channel stays listed for as long as somebody is tuned to it |
| Directory.ChangesAreAnnounced | apps/companion-core/src/lib.rs:1248-1391 | every deletion, every longer list and every switch is broadcast, and a peer's word tombstones only a listed name |
| Directory.AnnouncementsAreTrue | apps/companion-core/src/lib.rs:1248-1391 | and each broadcast says what has become of the list |
| Directory.ChosenMeaning | apps/companion-core/src/lib.rs:1359-1360 | a switch settles on what was typed without white space around it, cut to 32 characters, and on the base channel exactly if nothing is left |
| Directory.TombstonesAreBounded | apps/companion-core/src/lib.rs:428-430 | tombstones number at most 256 plus local deletions, and a client passes on at most 256 peer deletions plus one for every switch of its own |
| Directory.TombstoneBoundIsAttained | apps/companion-core/src/lib.rs:1263-1391 | for every k a run with exactly k local deletions ends with 256 + k tombstones |
| Directory.CapHoldsIff | apps/companion-core/src/lib.rs:1263-1391 | the cap of 256 holds on every run with at most k local deletions if and only if k is 0 |
| Directory.LocalDeletionsPassTheCap | apps/companion-core/src/lib.rs:1376-1391 | for every n some run of local deletions leaves n tombstones |
| Gossip.GossipConverges | apps/companion-core/src/lib.rs:1248-1262 | on any connected graph, in any order of delivery, with at most 64 names: boundedly many frames are delivered, and once none is in flight every list holds exactly all names anyone started with or created |
| Gossip.StepKeeps | apps/companion-core/src/lib.rs:1248-1262 | every step keeps each name of a node known at its neighbours or on the way there, and none costs less than a unit of the measure per delivery |
| Resampling.Resampler.Process | apps/companion-core/src/audio.rs:198-212 | after any chunk the output so far is the closed form of all the input so far |
| Resampling.ReachedIff | apps/companion-core/src/audio.rs:198-212 | after n inputs exactly those outputs exist whose position lies before the last input: ceil((n-1) dst / src) of them |
| Resampling.ResampledPrefix | apps/companion-core/src/audio.rs:198-212 | more input never changes an output that exists |
| Resampling.OutputBetweenNeighbours | apps/companion-core/src/audio.rs:205-208 | every output lies between the two inputs around its position |
| Resampling.LinesStayLines | apps/companion-core/src/audio.rs:205-208 | a straight line comes out as the same straight line, so neighbours are weighted by nearness and nothing is shifted |
| Resampling.EqualRatesPassThrough | apps/companion-core/src/audio.rs:198-212 | at equal rates the output is the input without the sample still held |
| Resampling.ChunkingIsUnobservable | apps/companion-core/src/audio.rs:198-212 | any two ways to cut the same input give the same output |
| AudioPipeline.EncodePipeline.Feed | apps/companion-core/src/audio.rs:711-738 | after any chunk every buffer is the one function of all captured samples, and frames already cut stay |
| AudioPipeline.BlockLaw | apps/companion-core/src/audio.rs:711-738 | exactly floor(ceil((n-1) 48000 / rate) / 960) frames after n samples, residues below 480 and 960, frames and residues together being the denoised stream |
| AudioPipeline.BlocksKnowTheirPast | apps/companion-core/src/audio.rs:723-731 | each block is denoised once, in its place, by a suppressor that has seen exactly what came before |
| AudioPipeline.NoSampleLost | apps/companion-core/src/audio.rs:711-738 | with an identity denoiser the frames and residues are the resampled input, in order |
| AudioPipeline.Mixer.PlayBlock | apps/companion-core/src/audio.rs:858-892 | what is queued is what the next block adds to the resampled mix, blocks in order |
| AudioPipeline.Mixer.Refill | apps/companion-core/src/audio.rs:854-892 | at every output rate the refill terminates, ends less than one block above target and within the cap, and so trims no sample |

## Left out

- Real thread scheduling and timers: each critical section is one atomic step, deliveries and promotions are chosen freely.
- Dropped frames: the server's `try_send` into a full queue and control frames above the size limit are taken to arrive.
- Relay credentials are a frame naming the member, sent in the same step as the entry; their contents, and logging, are not modelled.
- The instant between inserting a handle and the socket remembering what it joined: both happen in one step.
- Signaling.SignalServer.AskRekey: the two locks of a rekey are one step.
- RoomKeys.SealingNeverRegresses: promotions are taken in adoption order, as equal timers deliver them; that the send key stays among the three held keys is not claimed.
- Engine.ForwardSecrecy: events must name current members where the program takes that for granted, since neither `is_authority_peer` nor `on_secure` looks the peer up.
- Convergence.LateAuthorityConverges: membership is fixed and initial generations are at most 1023, which is the exact bound; the ring's older keys depend on the order of arrival and are not compared.
- Pins.PinGuessBound: times stay 600 seconds clear of the end of the u64 range.
- Pins.TableGuessBound and Pins.TableLifetimeBound: a code that is drawn again after its session ended begins a new budget; the random draw itself is a parameter of `Create`.
- Pins.LifetimeGuessBound and Pins.TableLifetimeBound: an event later than a minute after creation has a sweep in the minute before it.
- RateLimit.PruningIsUnobservable: the per-address count is unbounded here, a u32 in the program.
- Gossip.GossipConverges: no deletions and at most 64 distinct names in all; a full list drops further names.
- Glare.OneRoundConverges: ICE candidates are not signals here, and a session description is only its maker and number; each side numbers its offers from the start of the round.
- Links.Mesh.OnAnswer: failures of the WebRTC library other than a refused state are not modelled.
- Handshake.SameFingerprintMeansMirrored: compares the whole transcript hash; the ten bytes shown to users are not enough for an exact statement.
- PairSession.ReflectedFrameNeverOpens: assumes that no two sealings produce the same ciphertext.
- Departure.RoomAgreesAgain: the sessions between those who stay are up, no further change comes in between, and the counter is below its maximum.
- Links.Mesh.OnOffer: a connection has no identity beyond its negotiation, so that an answer uses a new one shows only in the pairwise session it drops.
- The transcript hash as a 32-byte string, HKDF, X25519 and ML-KEM: parameters with the stated agreement and no proof of secrecy.
- Encoding of strings as UTF-8: lengths count characters, and case folding is a parameter of the channel directory.
- A rate change in mid-stream, which starts a new resampler in the program.
- Resampling.Resampler.Process: exact arithmetic instead of f64 phases and f32 samples.
- AudioPipeline.BlockLaw: noise suppression is any length-preserving function of what it has seen; DSP, Opus and the transmit and monitor switches come after the frames counted here.
- AudioPipeline.Mixer.Refill: the mixed values are a parameter and nobody consumes while the loop runs.
- Member names, speaking state, badges and every message to the user interface.
- Serverless mode, reconnects, the watchdog's schedule, web pages, settings, overlay and deployment: routing and formatting with only easy properties.

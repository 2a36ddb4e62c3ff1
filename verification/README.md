# Formal model of a two-person messenger

A browser client and a small signaling server let two people who share a link
talk over a direct, end-to-end encrypted data channel. The server pairs two
sockets in a room named by a hash of the link's secret, keeps a paired room
alive for a grace period when a peer drops, and hands out signed tokens from
which any process with the same secret can rebuild a room. The clients agree on
a key over the channel, confirm it, then exchange messages and files.

The project models that logic and proves it, over every input and every run:

- **Rooms** (`Rooms`, `RoomRegistry`, `RoomTheorems`, `RoomAnswers`): the room state
  machine as functions on values, and the registry as the object it is, a map of
  rooms and a map of pending timers that its methods reassign, each method proved
  against those functions; what each call answers, said outright. Restart plus
  recovery is shown to be the same as both peers dropping, for the rest of the
  room's life.
- **Sockets** (`Signaling`, `SignalingHandler`, `SignalingTheorems`,
  `SignalingAnswers`): one server process with its sockets; no ghost peers, each
  client's view of its room is right, and who hears what of every message.
- **Processes** (`Cluster`): many processes that start and crash, sharing a secret
  and a clock; the life of a room and the freshness of tokens across restarts.
- **Limiter** (`RateLimit`), **typing indicator** (`Typing`), **codecs and
  framing** (`Base64url`, `Text`, `RoomRecovery`, `Wire`, `Crypto`).
- **File transfer** (`FileTransfer`, `FileJobs`, `TransferTheorems`): the sending
  job cut at its awaits, the receiving job, and the two composed over a channel.
- **Session** (`Session`, `SessionObject`): the client session as a state machine
  in which every await is a step boundary, and the object whose methods update
  its fields, proved against it. On it rest `SessionInvariants`, `ReorderBuffer`,
  `RejoinTheorems`, `Lifecycle` with `LifeTheorems` (status, deadlines and retries as
  a machine of their own that every step follows), `HandshakeAgreement` with
  `LeftOver`, `SecretMismatch`, `KeyChange`, `ReceiveReports`, `AfterEnd`, the send
  queue in `SendDiscipline` and `SendTheorems`, and what one side says and sends and
  the other hears and gets in `SessionSends`, `SessionReceives`, `FilesReceived`,
  `Conversation` and `TransferAnswers`; `SessionSteps`, `HandlerSteps` and
  `LoopSteps` say once, for all of them, what one step can do to a session, and
  `Reachability` which sessions lead to which.

Specification functions say what one call does to a value; the classes do it in
place, with loops where the program has them. `Valid` is the invariant proved of
every run of the values, required and kept by every method that is called from
outside; `View`, `Value` or `Linked` tie object and value together, and the private
steps of a class are proved against the function of the same name.

## Where the program differs from what it says

- The program's own README.md says (line 45) that a restart drops all live rooms.
  With a recovery secret configured a token holder rebuilds its room
  (server/rooms.ts 282-320); the model follows the code, and
  `RoomTheorems.RestartRefinesDoubleDrop` says how.
- `draining` (client/session.ts 195-200) is there so that no two drain loops run, and
  none do (`SendTheorems.SingleSender`). The flag falls one turn after the loop saw
  an empty queue, so a file offered in that turn waits until the next sendFile:
  `SendTheorems.OfferedInTheGapStrands` is the run, `SendTheorems.StrandsOnlyInTheGap`
  the exact condition.
- A fragment mismatch is meant to fail loudly before confirmation (client/session.ts
  626-632). The transcript is of the sorted pair of keys and so the same from both
  ends: a session that is handed its own key-confirm accepts it. That is the only way
  (`SecretMismatch.DifferentSecretsSecureIffReflected`), and it happens
  (`SecretMismatch.ReflectionSecures`).
- A control frame of a file transfer is encrypted under the key held when its
  encryption began and sent without looking again (client/session.ts 855-862). One
  left over from before a drop can end the next handshake, and no other left-over can
  (`LeftOver.AgreementIffClear`).
- Leaving "secure" is meant to stop every transfer at once (client/session.ts 914). A
  file still being read is not stopped: it is offered under the next key and its
  chunks go out under the dead one (`KeyChange.ReadingOutlivesItsKey`); no other
  transfer sends anything more of its file, and none does once the session has ended
  (`KeyChange.ChunksOutliveKeyIffReading`).
- A receive that is cancelled or lost while one of its chunks is being decrypted is
  reported failed once more if that chunk is refused (client/session.ts 781-809):
  `ReceiveReports.ReportedAgainIffRefusedLate` is the exact condition.
- `end()` is described as a teardown. A handshake in flight runs on and can store a
  key in the ended session (`SessionInvariants.StaleKeySurvivesEnd`), from exactly two
  of the eleven places where it may be (`SessionInvariants.EndedGetsKeyIffDeriving`).
  Reports on one send and one receive can follow the ended event too
  (`AfterEnd.EndedSaysNothingElse`, `AfterEnd.EndedReportsSendIff`,
  `AfterEnd.EndedReportsReceiveIff`).
- A limiter whose clock goes back by even a millisecond can allow a request too many
  (`RateLimit.ClockToleranceIsExact`), and its default clock is Date.now, which can.
- The server's base64url decoder accepts texts that the client's rejects
  (`Base64url.DecodersAgree`, `Base64url.DecodersDiffer`).
- `unpadPlaintext` undoes `padPlaintext` only for contents without a zero byte
  (`Crypto.UnpadPad`, `Crypto.UnpadCutsAtZero`), which JSON text never has.

## Assumptions

- One reading of the clock per call; random peer ids and transfer ids are fresh; the
  clock of a cluster run does not pass a pending timer.
- HMAC is a function of secret and message, and only issued tokens verify in
  `Cluster`; encryption and decryption are functions of which the second undoes the
  first. In the session, keys, codes, transcripts and ciphertexts are symbolic: a
  ciphertext opens under exactly the key that sealed it, an ECDH secret depends on
  the unordered pair of keys, and different inputs derive different keys.
- A socket on which close was called delivers no further message: the WebSockets
  Standard of the WHATWG drops a message received while the ready state is not OPEN.
- A link's send and close never re-enter the registry, and listeners never re-enter
  the session. `sendData` throws once the channel is closed; a channel never opens on
  a closed transport; "created" answers the first request only; transport events are
  handled one at a time.

## Model

| member | source | states |
|---|---|---|
| `Rooms.ClampInviteWindow` | server/rooms.ts:13-15 | the window in 30 s to 1 h nearest to what was asked for, which is left alone when it lies there |
| `Rooms.ClampGrace` | server/rooms.ts:17-19 | the grace period in 15 s to 30 min nearest to what was asked for |
| `RoomRegistry.RoomRegistry.constructor` | server/rooms.ts:94-102 | an empty registry with no pending timer |
| `RoomRegistry.RoomRegistry.StartCountdown` | server/rooms.ts:322-326 | replaces the room's countdown by one due `ms` from now; pending timers and counting-down rooms stay in one-to-one correspondence |
| `RoomRegistry.RoomRegistry.StopCountdown` | server/rooms.ts:328-334 | clears the room's timer and deadline together and nothing else |
| `RoomRegistry.RoomRegistry.Insert` | server/rooms.ts:142 | registers a room that has no countdown yet; every pending timer still names the room object it captured |
| `RoomRegistry.RoomRegistry.Open` | server/rooms.ts:142-147 | a new room appears with exactly one pending timer, which captured that very room object |
| `RoomRegistry.RoomRegistry.SetRoom` | server/rooms.ts:176-177 | writing other fields of a room leaves every timer linked to its room |
| `RoomRegistry.RoomRegistry.DeleteRoom` | server/rooms.ts:344-348 | the room is gone, and the pending timers are exactly those of the rooms that remain and count down |
| `RoomRegistry.RoomRegistry.CloseRoom` | server/rooms.ts:336-342 | each peer in turn is sent one room-closed and closed, then the room is gone |
| `RoomRegistry.RoomRegistry.SendAll` | server/rooms.ts:183-191 | one copy of the message per peer, in order |
| `RoomRegistry.RoomRegistry.Create` | server/rooms.ts:112-154 | let through exactly for a well-formed id not taken, finite periods and a place below the cap; then the room waits from now on with the allowed invite window and grace period nearest to what was asked for each |
| `RoomRegistry.RoomRegistry.RecoverRoom` | server/rooms.ts:282-320 | a room is rebuilt exactly from a verified token for this id, below the cap and within its age bound: waiting with the remaining budget, or grace with a fresh countdown |
| `RoomRegistry.RoomRegistry.Join` | server/rooms.ts:156-163 | let in exactly if the registered room, whatever its state, has a free place, or the token revives one that is not registered; the registry stays valid |
| `RoomRegistry.RoomRegistry.Admit` | server/rooms.ts:164-205 | the newcomer is let in if and only if fewer than two peers are there, whatever the room's state, and comes after them; a second one pairs the room, stamps pairedAt and cancels the countdown before the token is made, and the peer already there is told |
| `RoomRegistry.RoomRegistry.Signal` | server/rooms.ts:207-218 | between two members of the sender's own room exactly one message goes to the addressee's link, as it is; otherwise none does |
| `RoomRegistry.RoomRegistry.Leave` | server/rooms.ts:221-226 | a member's leave removes it and closes the room for the other |
| `RoomRegistry.RoomRegistry.StartGrace` | server/rooms.ts:245-250 | the room enters grace with a countdown of its own grace period |
| `RoomRegistry.RoomRegistry.AfterDrop` | server/rooms.ts:234-261 | only a paired room reacts to a drop: grace, one countdown, and the survivor is told |
| `RoomRegistry.RoomRegistry.Disconnect` | server/rooms.ts:229-262 | a drop removes the peer; waiting and grace rooms keep their countdown as it was |
| `RoomRegistry.RoomRegistry.Fire` | server/rooms.ts:143-147 | a firing timer closes the very room object it captured, which is still the one registered under that id, and whose deadline it is |
| `Rooms.WithoutPeerOk` | server/rooms.ts:232 | removing a registered peer removes exactly that one |
| `Rooms.CreateKeepsOk` | server/rooms.ts:125-154 | after any create: paired exactly with two peers, waiting exactly while never paired, counting down exactly while not paired, a waiting deadline at createdAt plus the window |
| `Rooms.AdmitKeepsOk` | server/rooms.ts:164-204 | the same after admission to a registered or rebuilt room |
| `Rooms.AdmitFromMap` | server/rooms.ts:157-163 | admission does the same whether the room was rebuilt or registered all along |
| `Rooms.DisconnectKeepsOk` | server/rooms.ts:229-262 | the same after a drop |
| `RoomTheorems.JoinKeepsOk` | server/rooms.ts:156-205 | the same after a join, with or without a token |
| `RoomTheorems.ApplyKeepsOk` | server/rooms.ts:112-262 | every call of the registry, timers included, keeps every room well formed |
| `RoomTheorems.ApplyIsLocal` | server/rooms.ts:112-262 | a call changes at most the room it names and adds it only below the cap |
| `RoomTheorems.RoomCapHolds` | server/rooms.ts:128-130 | one call never takes the number of rooms over maxRooms, recoveries included |
| `RoomTheorems.CountdownNeverMoves` | server/rooms.ts:192-195 | one call: a room that was counting down and still is has the same deadline, state and pairing time; only a pairing ends a countdown |
| `RoomTheorems.DropAllLeaves` | server/rooms.ts:229-262 | what is left of a waiting or paired room after all its peers dropped at one time, in any order |
| `RoomTheorems.RestartIsDoubleDrop` | server/rooms.ts:282-320 | for any waiting or paired room: wiping the registry and joining with its token gives the same answer and the same room as both peers dropping and then joining; it is accepted if and only if the room is within its age bound |
| `RoomTheorems.SameRoomStep` | server/rooms.ts:156-262 | two registries that agree on a room answer one call on it alike and still agree on it |
| `RoomTheorems.RestartIsUnobservable` | server/rooms.ts:282-320 | and so they answer every later sequence of calls on it alike, until it closes |
| `RoomTheorems.RestartRefinesDoubleDrop` | server/rooms.ts:282-320 | restart plus recovery is indistinguishable from a double drop for the rest of the room's life |
| `RoomTheorems.ClosingTellsEveryoneOnce` | server/rooms.ts:336-342 | on closing every remaining peer hears exactly one room-closed and is closed, and nobody else hears anything |
| `RoomAnswers.CreateAnswers` | server/rooms.ts:112-154 | the answer to a create, to the letter: the three refusals, or a room holding its creator, waiting from now on, with the nearest allowed window and period and a token of exactly this room |
| `RoomAnswers.JoinAnswers` | server/rooms.ts:156-205 | a join of a registered room is let in if and only if it has fewer than two peers, whatever its state: after those there, pairing it if one was, told to that one only; otherwise room-full and nothing changes |
| `RoomAnswers.RejoinAnswers` | server/rooms.ts:282-320 | a join of an unregistered room is let in if and only if the token is of this room, below the cap and within its age bound; then it is alone in the room that token stands for |
| `RoomAnswers.JoinIsAnswered` | server/rooms.ts:156-205 | every join is let in, refused as full or refused as not found, each exactly when it should be |
| `RoomAnswers.RelayAnswers` | server/rooms.ts:207-218 | between two members exactly one message, to the link of the addressee; for anyone else none |
| `RoomAnswers.LeaveAnswers` | server/rooms.ts:221-226 | a member's leave takes the room away and the other one, only, hears that its peer ended it; anyone else's does nothing |
| `RoomAnswers.DropAnswers` | server/rooms.ts:229-262 | a member's drop puts a paired room in grace for its own period from now on and tells the survivor only; any other room merely loses the member |
| `RoomAnswers.ExpiryAnswers` | server/rooms.ts:336-342 | a countdown that runs out closes the room, as an expired invite exactly if it was never paired |
| `SignalingHandler.SignalingHandler.constructor` | server/signaling-server.ts:48-54 | a handler over one registry without rooms is sound and has no sockets yet |
| `SignalingHandler.SignalingHandler.OnOpen` | server/signaling-server.ts:79-85 | a new socket is in no room and is open exactly if the connection limiter allowed it; every other socket is as it was and the server stays sound |
| `SignalingHandler.SignalingHandler.StartClosing` | server/signaling-server.ts:75-100 | an idle, oversized or malformed socket is no longer open and otherwise as it was, nobody else is touched, and the server stays sound |
| `SignalingHandler.SignalingHandler.DeliverFrom` | server/signaling-server.ts:69-72 | the sends and closes of a registry call reach the sockets in order |
| `SignalingHandler.SignalingHandler.OnMessage` | server/signaling-server.ts:87-199 | for every message the server stays sound: every registered peer is a live socket naming it back whose client knows its room, and the registry's timers match its rooms; the dispatch is limiter verdicts, one room per socket, registry call, reply |
| `SignalingHandler.SignalingHandler.OnCreate` | server/signaling-server.ts:114-145 | a created room's id and peer id are stored before the reply; a refusal stores nothing |
| `SignalingHandler.SignalingHandler.OnJoin` | server/signaling-server.ts:147-177 | likewise for join; a full room also closes the socket |
| `SignalingHandler.SignalingHandler.OnSignal` | server/signaling-server.ts:179-187 | a signal is relayed only for the socket's own room; one between two of its members is appended, as it is, to the addressee's open socket and touches no other |
| `SignalingHandler.SignalingHandler.OnLeave` | server/signaling-server.ts:189-197 | the ids are forgotten before the registry is told, so a close afterwards reports nothing |
| `SignalingHandler.SignalingHandler.OnClose` | server/signaling-server.ts:201-211 | after the last event of a socket no room holds its link and its peer is forgotten; the server stays sound |
| `SignalingHandler.SignalingHandler.OnTimer` | server/signaling-server.ts:69-72 | a firing registry timer takes its room away, no socket is left registered in it, and the server stays sound |
| `SignalingTheorems.OneRoomPerSocket` | server/signaling-server.ts:114-118 | a registered peer belongs to one socket in one room; no socket is in two rooms |
| `SignalingTheorems.NoGhostAfterClose` | server/signaling-server.ts:201-211 | after onclose no room holds the socket's link, also when its room expired or the id was re-created meanwhile |
| `SignalingTheorems.ConnectKeeps` | server/signaling-server.ts:56-85 | a new socket keeps the server sound (see MessageKeeps) |
| `SignalingTheorems.StartClosingKeeps` | server/signaling-server.ts:74-77 | an idle, oversized or malformed socket that starts closing keeps the server sound |
| `SignalingTheorems.CreateKeeps` | server/signaling-server.ts:114-145 | a create keeps it sound: the creator's socket names room and peer back and its client knows it is alone |
| `SignalingTheorems.JoinKeeps` | server/signaling-server.ts:147-177 | a join keeps it sound: newcomer and peer already there each know exactly the other and hold the room's current token |
| `SignalingTheorems.LeaveKeeps` | server/signaling-server.ts:189-197 | a leave keeps it sound |
| `SignalingTheorems.DropKeeps` | server/signaling-server.ts:201-211 | a drop keeps it sound: the survivor's view loses exactly the peer that went |
| `SignalingTheorems.CloseKeeps` | server/signaling-server.ts:201-217 | the close of any socket keeps it sound |
| `SignalingTheorems.ExpireKeeps` | server/signaling-server.ts:69-72 | an expiring room keeps it sound: no socket is left registered in it |
| `SignalingTheorems.MessageKeeps` | server/signaling-server.ts:87-199 | every message keeps it sound: each registered peer is an unclosed socket naming it back, folding the messages an open socket accepted gives exactly the other members of its room, its latest token is the room's current metadata, and a room-closed is the last thing a socket accepts |
| `SignalingTheorems.SignalsStayInTheRoom` | server/signaling-server.ts:179-187 | a relayed signal goes from a member of a room to a member of the same room, payload untouched |
| `SignalingAnswers.RefusalAnswers` | server/signaling-server.ts:87-118 | a closed socket's message does nothing; one over a limit, or asking for a second room, is told which and nothing else happens; a ping is answered |
| `SignalingAnswers.CreateRequestAnswers` | server/signaling-server.ts:114-145 | a create is answered with peer id and token and the socket is in the room, or with the reason and nothing else happens |
| `SignalingAnswers.JoinRequestEnters` | server/signaling-server.ts:147-177 | a join of a room with a free place, whatever its state, is answered with who is there; the one already there hears of it, every other socket is as it was |
| `SignalingAnswers.JoinRequestRevives` | server/signaling-server.ts:147-177 | so is one whose token revives a room |
| `SignalingAnswers.JoinRequestRefused` | server/signaling-server.ts:147-177 | a join of a full room hears so and its socket closes; of an unknown one it hears so and nothing else happens |
| `SignalingAnswers.SignalArrives` | server/signaling-server.ts:179-187 | a member's signal to its roommate is appended to the roommate's open socket, payload untouched, and no other socket changes |
| `SignalingAnswers.StraySignalDropped` | server/signaling-server.ts:179-187 | a signal for a room the socket is not in is dropped |
| `SignalingAnswers.LeaveRequestAnswers` | server/signaling-server.ts:189-197 | a leave takes the socket out of its room and closes the room for the other one, who hears why; nobody else hears anything |
| `SignalingAnswers.DropIsTold` | server/signaling-server.ts:201-211 | a member's socket that closes is in no room; if the room was paired the other one hears that its peer left and the room enters grace; nobody else hears anything |
| `SignalingAnswers.ExpiryIsTold` | server/signaling-server.ts:69-72 | when a countdown runs out the room is gone, whoever is in it hears why and is closed, nobody else hears anything |
| `Cluster.CallKeepsFacts` | server/rooms.ts:112-320 | one registry call keeps windows in bounds, pairing times genuine and no countdown overdue |
| `Cluster.CallKeepsSolo` | server/rooms.ts:298-318 | a room rebuilt by one peer alone never outlives pairing time plus age bound plus grace |
| `Cluster.NextKeepsOk` | server/rooms.ts:85-349 | any step of any of several processes sharing a secret (start, crash, socket events, timers, clock) keeps the global invariant |
| `Cluster.RunKeepsOk` | server/rooms.ts:85-349 | and so does every run |
| `Cluster.BoundedLife` | server/rooms.ts:282-320 | in every reachable state, however many crashes and solo recoveries: a never-paired room is within its invite window, every pairing time is that of a genuine two-peer join, and a rebuilt room that has not re-paired is gone by pairedAt plus recoveryMaxAgeMs plus graceDurationMs |
| `Cluster.TokensFreshAndBounded` | server/rooms.ts:176-203 | in every reachable state a connected peer's latest token is its room's current metadata and was issued, its view of the room is right, and every room's windows are in bounds |
| `Cluster.CapInEveryState` | server/rooms.ts:128-130 | in every reachable state no process holds more than maxRooms rooms, whatever was created, recovered, crashed and started again |
| `Cluster.CountdownNeverMovesOverRuns` | server/rooms.ts:192-195 | over whole runs: as long as a room stays registered and unpaired its deadline, state and pairing time are what they were, through drops and solo rejoins; a never-paired room always ends with the invite window that began at its creation |
| `Cluster.RestartOfReachableRoom` | server/rooms.ts:282-320 | in every reachable state, for every waiting or paired room and the latest token of any peer whose socket is open: an empty registry given that token answers the join and every later call on the room as the old one does after both drops, and accepts exactly within the age bound |
| `RateLimit.SlidingWindowLimiter.constructor` | server/rate-limit.ts:26-30 | an empty limiter |
| `RateLimit.SlidingWindowLimiter.Check` | server/rate-limit.ts:37-59 | prunes the key, answers, records an allowed hit, and sweeps on every 128th call |
| `RateLimit.SlidingWindowLimiter.SweepAll` | server/rate-limit.ts:62-68 | exactly the keys whose every timestamp expired are dropped |
| `RateLimit.StepOnKey` | server/rate-limit.ts:37-68 | what one check leaves of any key: pruned and perhaps extended, or gone only if all expired |
| `RateLimit.CheckAgrees` | server/rate-limit.ts:37-59 | one check answers as the unbounded log would and stays in agreement with it |
| `RateLimit.LimiterRefinesLog` | server/rate-limit.ts:37-68 | under a clock that never goes back the limiter answers every request of every run as a log of what it allowed that forgets nothing; pruning and sweeping are invisible |
| `RateLimit.ClockToleranceIsExact` | server/rate-limit.ts:26-59 | for every limit, every window of at least one millisecond and every d: the limiter answers every run whose clock never goes back by more than d as the log does, if and only if d is 0 or the limit allows nothing |
| `RateLimit.PruningForgets` | server/rate-limit.ts:38-40 | the failing family for a limit of two or more: hits at 0, one at windowMs that prunes them, and a request at windowMs - 1 that the log refuses is allowed |
| `RateLimit.SweepingForgets` | server/rate-limit.ts:52-68 | the failing run for a limit of one: the sweep of the 128th call forgets the hit |
| `RateLimit.LogBound` | server/rate-limit.ts:42-50 | the reference log never holds more than `limit` hits of a key in (a, a + windowMs] |
| `RateLimit.AtMostLimitPerWindow` | server/rate-limit.ts:37-59 | nor does the limiter allow more, for any interval of one window |
| `RateLimit.HeldKeysBounded` | server/rate-limit.ts:52-56 | every key held was live at the last sweep or asked for in the fewer than 128 calls since |
| `Base64url.ServerEncode` | server/room-recovery.ts:15-22 | the accumulating loop with btoa and replacements computes section 5 of RFC 4648 without padding |
| `Base64url.ServerTextIsEncode` | server/room-recovery.ts:18-21 | removing every = after translating the alphabet is that encoding |
| `Base64url.ServerDecodeIsDecode` | server/room-recovery.ts:24-31 | on base64url text the padding trick before atob decodes as RFC 4648 does, lengths 1 modulo 4 rejected |
| `Base64url.ServerDecodesExactly` | server/room-recovery.ts:24-31 | the server decodes a text if and only if, white space apart, it is letters of either alphabet followed by equals signs that together with the added ones are at most two and complete a group of four, or there are none and the last group is no single letter |
| `Base64url.DecodersAgree` | server/room-recovery.ts:24-31 | the server's and the client's decoder agree on a text if and only if it is base64url text or is not of the form the server reads |
| `Base64url.DecodersDiffer` | server/room-recovery.ts:24-31 | a padded text, one in the standard alphabet and one with trailing spaces are three that only the server decodes |
| `Base64url.EncodeInjective` | server/room-recovery.ts:15-22 | different bytes have different texts |
| `Text.Utf8RoundTrip` | server/room-recovery.ts:49 | decoding the UTF-8 of a text gives the text |
| `RoomRecovery.SplitAtDot` | server/room-recovery.ts:64-66 | a token splits at its only dot |
| `RoomRecovery.RecordRoundTrip` | server/room-recovery.ts:84-95 | the field-type checks accept every payload and return it |
| `RoomRecovery.RecordReadsExactly` | server/room-recovery.ts:84-95 | a parsed record passes the checks if and only if it has the five fields of the payload, of their types, whatever else it has |
| `RoomRecovery.VerifiesExactly` | server/room-recovery.ts:60-99 | a text verifies to a payload if and only if it is a body, a dot and the mac of exactly that body under the secret, and the body opens to it |
| `RoomRecovery.OpenBody` | server/room-recovery.ts:83-95 | a body opens to the payload it was made from |
| `RoomRecovery.VerifySigned` | server/room-recovery.ts:44-99 | verify(sign(p)) is p, for every payload and secret |
| `RoomRecovery.OtherSecret` | server/room-recovery.ts:74-80 | under another secret a token verifies if and only if both secrets give the same mac for its body |
| `RoomRecovery.BodyInjective` | server/room-recovery.ts:48-51 | a signature vouches for one payload only |
| `Base64url.ClientEncode` | client/crypto.ts:18-27 | the client's loop computes the same encoding |
| `Base64url.ClientTextIsEncode` | client/crypto.ts:23-26 | stripping only trailing = is enough |
| `Base64url.ClientDecodeIsDecode` | client/crypto.ts:29-44 | the client's decoder is RFC 4648 decoding on every text |
| `Base64url.RoundTrip` | client/crypto.ts:18-44 | decoding what was encoded gives it back with either codec on either side |
| `Text.JsonRoundTrip` | client/crypto.ts:198 | parsing the JSON text of a flat record gives the record |
| `Text.JsonNoZeroByte` | client/crypto.ts:172 | JSON text never holds a zero byte, whatever its strings (section 7 of RFC 8259) |
| `Crypto.PadPlaintext` | client/crypto.ts:146-158 | fills a buffer of the smallest bucket with content, zero byte and ones, or fails |
| `Crypto.PadSmallestBucket` | client/crypto.ts:144-153 | the bucket is the smallest that fits; padding fails exactly above 4095 bytes |
| `Crypto.UnpadPad` | client/crypto.ts:160-166 | unpadding undoes padding if and only if the content has no zero byte |
| `Crypto.UnpadCutsAtZero` | client/crypto.ts:160-166 | a content with a zero byte comes back cut at its first one, the single zero byte as nothing at all |
| `Crypto.UnpadIsExact` | client/crypto.ts:160-166 | unpadding gives what stands before the first zero byte, and fails if and only if there is none |
| `Crypto.PayloadRoundTrip` | client/crypto.ts:168-199 | encryption accepts exactly the payloads serialising to at most 4095 bytes, and each of them decrypts to itself |
| `Crypto.EncryptFileChunk` | client/crypto.ts:221-241 | the two buffers filled in place hold version, iv and the ciphertext of id, big-endian sequence number and bytes |
| `Crypto.Uint32RoundTrip` | client/crypto.ts:230 | the four bytes are the number's digits to base 256, highest first, and read back as it |
| `Crypto.ChunkRoundTrip` | client/crypto.ts:221-268 | a chunk frame opens to the id, number and bytes it was made from |
| `Crypto.ChunkOpensExactly` | client/crypto.ts:243-268 | whatever bytes arrive: bad version exactly for a first byte other than the version; a chunk exactly if the frame is version, iv and a long enough ciphertext that decrypts to id, big-endian number and bytes |
| `Crypto.TranscriptIsThePair` | client/crypto.ts:132-142 | both sides hash the same text whichever key is their own, and the text determines the pair of keys |
| `Wire.ChunkCountFor` | shared/wire.ts:37-39 | the least number of chunks that holds `size` bytes |
| `Wire.FrameRoundTrip` | shared/wire.ts:53-81 | parseFrame gives back every frame from its text |
| `Wire.FrameRecordRoundTrip` | shared/wire.ts:63-80 | the version and field checks accept every frame |
| `Wire.FrameReadsExactly` | shared/wire.ts:53-81 | an object is read as a frame if and only if it has all of that frame's fields, and as of a bad version if and only if its version is another number |
| `Wire.PayloadRecordRoundTrip` | shared/wire.ts:19-29 | every payload kind reads back from its JSON fields |
| `Wire.PayloadReadsExactly` | shared/wire.ts:19-29 | an object is read as a payload if and only if it has all of that payload's fields, and no text id if it is a chat without one |
| `FileTransfer.OwnOfferAccepted` | client/file-transfer.ts:125-138 | of the sizes sendFile lets through, a receiver accepts the offer if and only if the file has a name |
| `FileJobs.FileSendJob.constructor` | client/file-transfer.ts:51-66 | a job starts at its first await, not stopped, nothing sent, and sound |
| `FileJobs.FileSendJob.Resume` | client/file-transfer.ts:61-95 | from any await: what was sent stays a prefix of offer, chunks, done, all of it exactly when run() returned true; a stopped job sends no further chunk; the job stays sound |
| `FileJobs.FileSendJob.Stop` | client/file-transfer.ts:98-102 | the first reason stands, nothing keeps the job parked, and what was sent still fits its await |
| `FileJobs.FileReceiveJob.constructor` | client/file-transfer.ts:155-161 | an empty, sound receive job for the offer |
| `FileJobs.FileReceiveJob.AcceptFrame` | client/file-transfer.ts:170-185 | a chunk is taken if and only if it is of this transfer, next in order and still fits, and then its bytes come after those held; any other changes nothing; never more is held than was offered |
| `FileJobs.FileReceiveJob.Finish` | client/file-transfer.ts:188-205 | the assembly loop fills one buffer of the offered size; the file is returned, byte for byte what was held, if and only if all of it arrived and has the announced hash |
| `FileJobs.FileReceiveJob.Discard` | client/file-transfer.ts:208-210 | drops the bytes held; the counters stay, so the job can never take more than was offered |
| `TransferTheorems.HappensKeepsOk` | client/file-transfer.ts:61-119 | stop, drain and every await keep: what was sent is the part of the script the await implies, and a parked job is never a stopped one |
| `TransferTheorems.SentIsPrefix` | client/file-transfer.ts:61-95 | over every run, with stops and channel failures anywhere, the frames sent are a prefix of offer, chunks, done; run() returned true if and only if all were sent |
| `TransferTheorems.StoppedSendsOnlyControl` | client/file-transfer.ts:92-94 | after a stop the job sends exactly the offer or done frame it was already encrypting, and never a chunk |
| `TransferTheorems.ResumeAnswers` | client/file-transfer.ts:61-95 | running on from any await: it sends exactly what it has encrypted while the channel is open, chunks only if not stopped; throws exactly on a closed channel or a control frame not let through; a stopped job is over, unless a control frame of it is under encryption and fails or goes out first |
| `TransferTheorems.ReceivedPrefix` | client/file-transfer.ts:170-185 | after the offer and n chunks the receiver holds exactly the file's first n chunks of bytes |
| `TransferTheorems.DeliveredIsPrefixOfFile` | client/file-transfer.ts:61-205 | sender and receiver over a FIFO channel, whatever part was delivered: no order or overflow error, the bytes held are a prefix of the file, and the result is the file exactly when the done frame arrived |
| `TransferTheorems.AcceptedIsAppended` | client/file-transfer.ts:170-185 | an accepted chunk is appended to the bytes held, a refused one changes nothing |
| `TransferTheorems.FinishIsExact` | client/file-transfer.ts:188-205 | a job finishes with its bytes if and only if it has all of them and they have the announced hash |
| `TransferTheorems.ReceiverStaysWithinOffer` | client/file-transfer.ts:170-205 | for arbitrary frames: as many chunks as the sequence number says, as many bytes as counted, never more than offered; a completed file fits the limit and has a hash that a done frame announced |
| `SessionSends.UndisturbedJobSendsAll` | client/file-transfer.ts:61-95 | a job that is never stopped, on a channel that drains, sends the whole transfer, whatever is buffered each time it looks |
| `SessionSends.ParksExactlyAbove` | client/file-transfer.ts:77-82 | it parks itself exactly if it has another chunk to send and more than the high-water mark is buffered |
| `Typing.TypingSender.constructor` | client/ui/typing.ts:12-19 | an idle sender |
| `Typing.TypingSender.Update` | client/ui/typing.ts:22-37 | active exactly while the composer is not empty; the last send says so, and two sends of true less than 4000 ms apart have a false between them |
| `Typing.TypingTracker.constructor` | client/ui/typing.ts:44-51 | a hidden tracker with no timer |
| `Typing.TypingTracker.Signal` | client/ui/typing.ts:53-64 | shows and restarts the one failsafe timer, or hides; the callback runs only on a change |
| `Typing.TypingTracker.Hide` | client/ui/typing.ts:67-76 | no timer is left and the callback runs only if it was shown |
| `Typing.TypingTracker.Fire` | client/ui/typing.ts:59 | the failsafe hides the indicator |
| `Typing.LinkAlwaysOk` | client/ui/typing.ts:12-77 | for all inputs: changes strictly alternate, shown exactly while the failsafe is pending, sends of true with no false between are 4000 ms apart |
| `Typing.BurstHolds` | client/ui/typing.ts:31-59 | from every reachable state, an earlier burst still under way or a dismissed indicator included: with inputs at most 3000 ms apart nothing hides the indicator once the burst has begun |
| `Typing.BurstBoundIsExact` | client/ui/typing.ts:31-59 | every burst with gaps up to a bound, after any earlier events, keeps the indicator up if and only if the bound is at most 3000 ms |
| `SessionObject.Session.constructor` | client/session.ts:202-209 | a new session is sound: connecting, nothing pending, the share link's token remembered |
| `SessionObject.Session.FailQueuedTransfers` | client/session.ts:927-936 | every queued transfer fails, in order, and the queue is empty |
| `SessionObject.Session.ConnectSettled` | client/session.ts:1052-1062 | a settled attempt joins, with the latest token, exactly if it succeeded and a rejoin is still allowed; it never changes the status; the session stays sound |
| `SessionObject.Session.TimerFires` | client/session.ts:1008-1033 | no timer fires once ended; an unconfirmed handshake ends the session, a grace tick ends it if and only if the deadline passed, and a retry is one more attempt that moves no deadline, unless the invite it waits on has run out, which ends it; the session stays sound |
| `SessionObject.Session.Wake` | client/session.ts:380-386 | a parked retry runs at once, with the outcome of its timer; a session that is ended or has none is left as it was; the session stays sound |
| `SessionObject.Session.End` | client/session.ts:350-373 | the session is over at once: no timer, key, queue, receive or awaited ack, one ended event as the last; only a session that could send keeps its key for the farewell; it stays sound |
| `SessionObject.Session.EndTail` | client/session.ts:356-371 | the end goes out under the captured key if and only if the channel is still open, then the room is left and the transport closed; the session stays sound |
| `SessionObject.Session.HandleEvent` | client/session.ts:425-499 | ended is absorbing, no event alone makes a session secure; losing the peer while secure or securing begins the whole grace period, with an attempt at the signaling server exactly if that was lost; one that stays reconnecting keeps its deadline and its countdown; the session stays sound |
| `SessionObject.Session.ResumeHandler` | client/session.ts:534-810 | from every await: the session becomes secure only by opening, under its own key, the key-confirm it expects; a chunk that is the next of the file being received is kept and counted, and nothing else of the transfers changes; an ended one stays ended; it stays sound |
| `SessionObject.Session.SendFile` | client/session.ts:271-286 | accepted if and only if secure and of a valid size; then its id is returned, it is queued, held or being read, and a loop is draining; a refused call changes nothing; the session stays sound |
| `SessionObject.Session.DrainSendQueue` | client/session.ts:821-838 | the while loop: heads that cannot be sent fail one by one until one can be read or the queue is empty |
| `SessionObject.Session.RunLoop` | client/session.ts:821-897 | the drain loop from any await: there is at most one loop, and the session stays sound |
| `SessionObject.Session.BufferLow` | client/session.ts:860 | no job stays parked, and the session stays sound |
| `SessionObject.Session.CancelInQueue` | client/session.ts:295-304 | the first queued transfer of that id, found by a loop, is taken out and reported |
| `SessionObject.Session.CancelFile` | client/session.ts:289-331 | the active transfer of that id is told to stop; any other is afterwards in neither queue, receive slot nor ack slot; the session stays sound |
| `SessionObject.Session.SendApp` | client/session.ts:900-912 | one text under the session key exactly while the session can send, else nothing; the session stays sound |
| `SessionInvariants.FinishKeepsInv` | client/session.ts:1076-1088 | finishing from any live state, also from a timer that just fired, leaves no timer, no key and exactly one ended event |
| `SessionInvariants.TimerKeepsInv` | client/session.ts:1017-1033 | a timer that fires keeps the session invariant; none fires once ended |
| `SessionInvariants.EventKeepsInv` | client/session.ts:425-499 | so does every transport event |
| `SessionInvariants.HandlerKeepsInv` | client/session.ts:534-634 | so does the handler running on from any await, also after end() ran in between |
| `SessionInvariants.LoopIsTransfers` | client/session.ts:813-897 | the drain loop touches nothing but transfers and emits no ended event |
| `SessionInvariants.NextKeepsInv` | client/session.ts:142-1089 | every step keeps the invariant, and ended is absorbing |
| `SessionInvariants.RunKeepsInv` | client/session.ts:142-1089 | and so does every run |
| `SessionInvariants.SessionSafe` | client/session.ts:142-1089 | over every run of a new session: secure exactly when confirmed, with key, code and transcript of one exchange; grace timer pending exactly in reconnecting, confirm timer only in securing, rejoin timer only in reconnecting or waiting; one ended event exactly once ended, and then no timer |
| `SessionInvariants.SecureOnlyByConfirm` | client/session.ts:638-645 | a session becomes secure only by opening, under its own key, a key-confirm carrying the transcript it computed |
| `SessionInvariants.StaleKeySurvivesEnd` | client/session.ts:599-602 | a run from a new session to an ended one that holds a key: end() does not wait for a handler that is deriving one |
| `SessionInvariants.EndedGetsKeyIffDeriving` | client/session.ts:350-373 | an ended session without a key holds one after some run if and only if its handler was deriving the shared secret or the key when it ended |
| `SessionInvariants.EndedHoldsNoKey` | client/session.ts:350-373 | wherever else its handler was, an ended session never holds a key again, over every later run |
| `ReorderBuffer.ReplayIsFeed` | client/session.ts:615-619 | replaying the buffer is the same as the frames arriving one by one, a session that ends midway included |
| `ReorderBuffer.KeyArrives` | client/session.ts:589-619 | what the peer's key leads to with anything buffered: failure, or the replay with the handshake state complete |
| `ReorderBuffer.KeyPositionIsIrrelevant` | client/session.ts:562-634 | every position of the public key among the encrypted frames gives the same final session, events and messages as the key first; undecryptable frames, a bad key and a dead channel included |
| `HandshakeAgreement.ActsOk` | client/session.ts:534-645 | any step of one of two sessions keeps both sides' invariant and counts down exactly one if it is a handshake step |
| `HandshakeAgreement.SomeoneCanMove` | client/session.ts:534-645 | the handshake never deadlocks |
| `HandshakeAgreement.FileStepOk` | client/session.ts:271-331 | steps of file transfer disturb neither side's handshake: whatever they put on the channel is a chunk or sealed under the agreed key |
| `LeftOver.AgreementIffClear` | client/session.ts:534-645 | two sessions with one secret about to open a channel, new or re-keying with whatever transfers are left from before, agree in every play if and only if neither drain loop is waiting for the encryption of an offer or a done frame |
| `LeftOver.NotClearEnds` | client/session.ts:855-862 | otherwise a play between sides with distinct keys ends one of them: the left-over frame goes out under the dead key and the other end, awaiting the key-confirm, cannot open it |
| `LeftOver.LeftOverIsReachable` | client/session.ts:855-862 | a run from a new session reaches such a side: it loses its peer while encrypting an offer |
| `RejoinTheorems.GraceDeadlineNeverMoves` | client/session.ts:999-1015 | no step that leaves a session reconnecting moves or restarts its countdown |
| `RejoinTheorems.GraceEndsOnTime` | client/session.ts:1017-1024 | at a tick the session ends, with grace-expired, if and only if the countdown has run out |
| `RejoinTheorems.TokenStep` | client/session.ts:418-423 | a new token is stored with a full retry budget, a repeated one changes nothing |
| `RejoinTheorems.ErrorStep` | client/session.ts:501-531 | a server error is survived only as a not-found during a rejoin with a token and budget left, which costs one retry and leaves a rejoin timer pending |
| `RejoinTheorems.BudgetIsSpent` | client/session.ts:501-513 | over every run without a new token the budget falls by exactly the number of not-founds answered by another attempt |
| `RejoinTheorems.AtMostTwoRetriesPerToken` | client/session.ts:501-513 | so between two new tokens there are at most two of them, over every run |
| `Lifecycle.StepFollows` | client/session.ts:142-1089 | every step of the session, whatever its keys and transfers, does to its status, deadlines, timers, attempts, token and last words exactly what a small reference machine does, and announces exactly that: why it ends, how long grace still is, which token is new, when the room is joined or left |
| `Lifecycle.RunFollows` | client/session.ts:142-1089 | and so does every run |
| `LifeTheorems.LossBeginsGrace` | client/session.ts:999-1015 | from secure or securing, losing the peer, its channel or the signaling connection begins the whole grace period from now on and says so; an attempt begins exactly if signaling was lost |
| `LifeTheorems.GraceLasts` | client/session.ts:999-1024 | over every run from there on while reconnecting: a tick ends the session if and only if the whole grace period has passed since the loss, and until then says how much is left |
| `LifeTheorems.GraceBeginsOnce` | client/session.ts:999-1003 | a second loss while reconnecting restarts nothing |
| `LifeTheorems.TickAnswers` | client/session.ts:1017-1024 | a tick ends the session with grace-expired once the deadline has come, and until then announces what is left of it |
| `LifeTheorems.OnlyLossBeginsGrace` | client/session.ts:470-499 | a session is reconnecting only by such a loss |
| `LifeTheorems.GraceEndsNoEarlier` | client/session.ts:1017-1024 | over every run of a new session: one that a grace tick ends lost its peer at least its whole grace period before and had been reconnecting ever since |
| `LifeTheorems.RetryAnswers` | client/session.ts:1026-1042 | a retry that fires or is woken keeps the status and every deadline and is one more attempt; exactly a session waiting to rejoin whose invite has run out is ended instead, as invite-expired |
| `LifeTheorems.KeepsTrying` | client/session.ts:1026-1063 | while it may rejoin, an attempt is under way or a retry parked after every step, until an attempt succeeds and joins the room |
| `LifeTheorems.ConfirmationIsTimed` | client/session.ts:541-544 | over every run: a session that sent its key and is not yet confirmed has the timeout of the key confirmation pending |
| `LifeTheorems.StartSettles` | client/session.ts:409-1084 | start() settles exactly when the session is first let into a room or ends, and never twice |
| `LifeTheorems.StatusWasAnnounced` | client/session.ts:403-407 | over every run the status last announced is the session's status |
| `LifeTheorems.NewSessionKeepsTrack` | client/session.ts:403-545 | so of every session a run leads to from a new one: the status last announced is its own, and an unconfirmed key is timed |
| `HandshakeAgreement.Agreement` | client/session.ts:534-645 | over every interleaving of two sessions with one secret, chats and file transfers included, also transfers left from before the channel as far as no control frame of theirs is under encryption, on an in-order channel that stays up: neither ends, whoever is secure holds the key and code of this exchange, two secure ones the same key, code and transcript, and both are secure after exactly 24 handshake steps, one of which can always be taken until then |
| `SecretMismatch.NextKeepsOwned` | client/session.ts:142-1089 | whatever happens to a session, every key it holds or seals under comes from its own secret |
| `SecretMismatch.NextKeepsHeld` | client/session.ts:142-1089 | and every ciphertext it holds is one it was given |
| `SecretMismatch.SecureOnlyIfHandedBack` | client/session.ts:562-648 | two sessions with different secrets, over every run with end(), drops, timeouts, rejoins and transfers and a channel that loses, repeats, reorders, injects and hands a session its own frames: one is secure only if a key-confirm it sealed itself was handed back to it |
| `SecretMismatch.DifferentSecretsSecureIffReflected` | client/session.ts:562-648 | and a run makes one of them secure if and only if, at some point of it, one opens the key-confirm it had sealed itself |
| `SecretMismatch.HandedConfirmDecides` | client/session.ts:638-645 | of all ciphertexts the pair ever sealed, exactly its own key-confirm, delivered to a session that awaits confirmation, makes it secure |
| `SecretMismatch.ReflectionSecures` | client/session.ts:132-142 | a run from two new sessions with different secrets in which that happens: the transcript names the sorted pair of keys and is the same from both ends |
| `KeyChange.NextKeepsSound` | client/session.ts:142-1089 | every step keeps a session sound: the session invariant, the send discipline, while unconfirmed no transfer that can send, and only files with content taken up |
| `KeyChange.ReachableIsSound` | client/session.ts:142-1089 | so every session that any run leads to is sound |
| `KeyChange.FailAllEndsAllButReading` | client/session.ts:915-948 | failing all transfers ends every one of them except a file still being read |
| `KeyChange.NextKeepsOver` | client/session.ts:813-948 | no step sends a chunk of a transfer that is over, or takes it up again |
| `KeyChange.ReadingOutlivesItsKey` | client/session.ts:836-872 | from any secure session that is reading a file when the peer, the channel or the signaling connection is lost or a new channel opens, some run offers that file under the next key and sends its first chunk under the dead one |
| `KeyChange.SecureOrEnds` | client/session.ts:425-531 | a secure session stays so or ends at every step but those four events |
| `KeyChange.EndedSendsNoChunk` | client/session.ts:836-872 | no run of an ended session sends a chunk, a file still being read included |
| `KeyChange.ChunksOutliveKeyIffReading` | client/session.ts:836-948 | whatever step leaves secure: afterwards some run still sends a chunk of a transfer accepted before, if and only if the session has not ended and a file was being read at that moment |
| `ReceiveReports.StepReports` | client/session.ts:685-810 | every step keeps the account of receives, and reports on one a second time if and only if it refuses a chunk whose receive is gone |
| `ReceiveReports.ReceiveConservation` | client/session.ts:685-810 | over every run the file of the latest offer taken is in the slot, being finished, or was reported complete or failed, once or at most twice, and never while under way |
| `ReceiveReports.ReportedAgainIffRefusedLate` | client/session.ts:781-810 | a receive that was reported over is reported over again by some run if and only if a chunk that is refused is being decrypted for it at that moment |
| `ReceiveReports.ReportedTwiceIsReachable` | client/session.ts:305-316 | a run from a new session in which it is: cancelled while a chunk that does not decrypt is awaited |
| `AfterEnd.ReachableEndedIsOk` | client/session.ts:142-1089 | every ended session that a run leads to has nothing queued or being received, and one transfer at most unsettled |
| `AfterEnd.EndedSaysNothingElse` | client/session.ts:813-897 | over every run an ended session emits at most one failed send, at most one report on a receive, and nothing else |
| `AfterEnd.EndedReportsSendIff` | client/session.ts:873-896 | it reports on a send in some run if and only if its drain loop has a transfer in its hands or one awaits its ack |
| `AfterEnd.EndedReportsReceiveIff` | client/session.ts:706-810 | and on a receive if and only if its handler is at the verdict on a file, or on a chunk that is taken or fails the receive |
| `SessionReceives.SessionReceivesAsJob` | client/session.ts:685-810 | a secure session with an empty slot, fed the sealed frames of one transfer, complete, cut short, reordered or with others between, holds exactly the job, and has reported exactly the verdict, of the receiving job alone |
| `SessionReceives.SessionReceivesFile` | client/session.ts:685-810 | after any prefix of a file as sendFile sends it the session holds exactly its first bytes, and after all of it has reported exactly that file complete |
| `SessionReceives.WholeFileTakenIn` | client/session.ts:685-810 | all of a file taken in: the session has announced it, its progress after each chunk and the file byte for byte, and is otherwise as before |
| `FilesReceived.StepGathers` | client/session.ts:685-810 | every step: the slot holds exactly the bytes of the chunks accepted since the offer, and only those are ever reported complete |
| `FilesReceived.CompleteIsWhatWasAccepted` | client/session.ts:685-810 | over every run of a new session a file reported complete is exactly the bytes of the chunks accepted since its offer was taken |
| `SendDiscipline.FailAllKeeps` | client/session.ts:915-948 | failing every transfer keeps the send discipline: each queued id fails exactly once, the awaited one at most once |
| `SendDiscipline.CancelInQueueKeeps` | client/session.ts:295-304 | so does cancelling a queued transfer |
| `SendDiscipline.PushKeeps` | client/session.ts:279-280 | so does queueing a new one, under the next ticket |
| `SendDiscipline.SettleFailedKeeps` | client/session.ts:878-892 | so does putting a failed transfer behind the loop |
| `SendDiscipline.SettleSentKeeps` | client/session.ts:875-876 | so does putting a sent one behind it, even when it displaces another awaiting its ack |
| `SendDiscipline.FrameKeeps` | client/session.ts:849-874 | so does sending the active job's next frame: it continues the last block, and its transfer has not failed |
| `SessionSteps.PlainStepKeeps` | client/session.ts:350-531 | timers, connection attempts, end() and the events that are no data do nothing to a session but quiet bookkeeping and failing all transfers: every property that survives those two survives the step |
| `HandlerSteps.StepKeeps` | client/session.ts:425-811 | so does every step outside the send queue, if the property also survives handshake progress and what a peer's file control frames do; it need not survive becoming secure unless the step opens the expected key-confirm |
| `LoopSteps.QueueStepKeeps` | client/session.ts:271-331 | a step of the send queue keeps every property of loops, queued files and sent frames that one resumption of a job keeps |
| `SendTheorems.LoopTopKeeps` | client/session.ts:822-838 | the drain loop's iteration keeps the discipline |
| `SendTheorems.JobRunsOnKeeps` | client/session.ts:849-874 | so does the active job's step |
| `SendTheorems.JobEndedKeeps` | client/session.ts:873-896 | so does its end, however it ended |
| `SendTheorems.NextKeeps` | client/session.ts:142-1089 | every step of the session keeps it |
| `SendTheorems.AcceptedIsAlive` | client/session.ts:271-286 | an accepted file is queued, held or being read, and a loop is draining |
| `SendTheorems.CancelledIsGone` | client/session.ts:289-331 | a cancelled transfer that is not the active one is in no slot any more |
| `SendTheorems.SingleSender` | client/session.ts:271-286 | over every run: at most one drain loop, and the file frames sent are blocks in sendFile order, each a prefix of its transfer's offer, chunks and done, never interleaved |
| `SendTheorems.SendConservation` | client/session.ts:813-948 | over every run each id sendFile returned is in exactly one of queued, held, fully sent, failed before; at most one send-side failure, and nothing of it goes out afterwards |
| `SendTheorems.OfferedInTheGapStrands` | client/session.ts:813-819 | a four-step run from any secure idle session that leaves a queued file with no loop to take it up |
| `SendTheorems.StrandsOnlyInTheGap` | client/session.ts:813-819 | a step strands queued files if and only if it is the end of a loop with files waiting behind it |
| `SessionSends.SessionSendsFile` | client/session.ts:271-897 | a file handed to a secure session that sends nothing else goes out whole, whatever is buffered: exactly its frames, in order, under the session key, with the progress after each chunk; then its arrival is awaited, the loop is gone and nothing else has changed |
| `SessionSends.FileArrives` | client/session.ts:271-897 | and what it put on the channel, delivered to a session secure under that key, tells that user of the file and of each chunk and gives it the file byte for byte, and changes nothing else there |
| `Conversation.SaidIsHeard` | client/session.ts:636-684 | a chat, a name, a typing signal or an acknowledgement that a session sends is told to the other user as it is, once, and changes nothing else |
| `Conversation.EndIsHeard` | client/session.ts:350-373 | end() says so to the peer before the room is left, if the channel is still open, and ends the peer's session as the peer's doing |
| `Conversation.EndUnsaid` | client/session.ts:356-371 | when the channel is closed by the time the end is sealed, the room is left and the transport closed without it |
| `Conversation.UnconfirmedHearsNothing` | client/session.ts:636-684 | while unconfirmed whatever opens but a key-confirm is dropped, and once confirmed what does not open |
| `Conversation.StrayFrameIgnored` | client/session.ts:562-596 | a second public key, one before the own key pair exists, and a chunk with nothing to receive it are ignored |
| `Conversation.FileIsAcknowledged` | client/session.ts:706-770 | after a file arrived whole the receiver's acknowledgement settles it at the sender, whose user is told |
| `TransferAnswers.LoopTakesUp` | client/session.ts:821-838 | from the head of the loop: the next file is read under the session key, or the loop is over, or every queued file is reported failed in order |
| `TransferAnswers.ReadAnswers` | client/session.ts:839-849 | a file that cannot be read fails by itself and the next is taken up; one that can is the active transfer |
| `TransferAnswers.JobEndAnswers` | client/session.ts:873-896 | a job that is over is reported failed for the reason it was stopped, or else as the session is still secure or not; not at all, and awaited, if and only if everything went out; then the next is taken up |
| `TransferAnswers.FirstReasonStands` | client/session.ts:873-892 | whatever else happens the first reason to stop a transfer stands until its job is over and is then the one reported, unless everything had gone out or the job threw |
| `TransferAnswers.CancelAnswers` | client/session.ts:289-331 | the active transfer of that id is told to stop and nothing is said yet; otherwise the id leaves queue, receive and wait, and each it was in is reported cancelled |
| `TransferAnswers.CancelIsHeard` | client/session.ts:736-763 | the peer's cancel of the active transfer stops it, of one being received or awaited fails it, for the reason given, and any other is ignored |
| `TransferAnswers.OfferIsHeard` | client/session.ts:685-705 | an offer is taken up, and its user told, if and only if nothing is being received and its size, name and chunking are allowed ones |
| `TransferAnswers.ChunkAnswers` | client/session.ts:778-810 | a chunk is kept and counted if it opens, is of this file, next and fits; dropped if of another; otherwise the receive fails |
| `TransferAnswers.FailAllAnswers` | client/session.ts:915-948 | failing all transfers reports the awaited, the queued in order and the received one, empties all three, and tells the active one to stop |
| `TransferAnswers.LeavingSecureFailsAll` | client/session.ts:915-948 | whatever step leaves secure does exactly that |

## Left out

- RoomRegistry: a room object is a value in the map plus a serial number for its identity, so a second reference to the same object is not modelled beyond what a timer's closure captured; `peers` is a sequence in insertion order.
- Session: its handshake fields, its timer ids and its transfer fields are three record-valued fields of the object, and the active jobs are values inside it; `FileJobs` has the jobs as objects of their own.
- SendApp: chats, typing, identity, acks and cancels are encrypted and sent in one step; in the program the channel is checked again after the encryption, under the key captured before it. When the program sends an ack or a cancel of its own accord is left open: it may at any time.
- WholeFileTakenIn: the file-complete event repeats the name and type that the offer announced; here it carries the bytes only.
- FileArrives: the receiving session takes in the frames of one transfer with no other step between; `FilesReceived.CompleteIsWhatWasAccepted` is about every run.
- Agreement: while a play lasts the channel stays up and in order, no timer fires, neither side calls end(), and no event but the channel's own arrives; `SessionInvariants.SessionSafe` is about all of those.
- KeyPositionIsIrrelevant: all frames are handled at one clock reading, so chat timestamps are equal; the frames are well-formed ones.
- BurstBoundIsExact: a failsafe due at the very time of an input is taken to fire first.
- LimiterRefinesLog: limiter keys are numbers; in `Signaling` the limiters' verdicts are parameters.
- JsonRoundTrip: JSON is modelled for flat records of strings, integers, booleans and null, without white space, fractions or unpaired surrogates; malformed UTF-8 decodes to nothing instead of replacement characters.
- FrameRoundTrip: text that is not JSON and JSON that is not a frame are one outcome, as no caller tells them apart.
- FinishFileKeepsInv: a done frame for an incomplete file waits one turn for its verdict, where the program rejects it at once.
- The start() call before its first answer, and the room id derived from the secret; that its promise is settled appears as a flag, a rejoin as a JoinRoom entry.
- ECDH, HKDF, AES-GCM, SHA-256 and HMAC themselves; key generation, random numbers, sockets, the peer connection and its data channel.
- Idle timeouts, oversized and malformed messages beyond a socket that starts closing; logging; reading the environment.
- Liveness of rejoin: a retry waits for its timer, an attempt for the network. A transfer's is `SessionSends.SessionSendsFile`, on a channel that drains.
- The user interface other than the typing indicator, and static file serving: no state worth a proof.

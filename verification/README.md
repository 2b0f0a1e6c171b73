# A verified model of the secure-messaging backend

The project models the messaging server, its database writer, its wire framing and its key exchange,
and proves what holds of them over every interleaving of threads and every chunking of the wire.

| file | models |
|---|---|
| `Store.dfy`, `Database.dfy` | the SQLite tables, what each queued write task does to them, and the single writer thread |
| `Protocol.dfy` | the payload schema and the frames the server emits |
| `Server.dfy` | `handle_client` as a machine: one step is one shared access of one handler thread, of the writer, or of the rest of the backend |
| `Invariants.dfy`, `Preservation.dfy` | what every step keeps |
| `Durability.dfy`, `Handover.dfy`, `Limits.dfy` | what an acknowledgement is worth, what was handed over is marked, and where that stops |
| `Replay.dfy`, `ReplayWindow.dfy` | replay protection with a delayed writer and with purges |
| `Replies.dfy`, `Client.dfy` | replies against requests, and the client's wait loop |
| `Sessions.dfy` | tokens, accounts and routes over whole runs |
| `Mailbox.dfy` | the offline drain, once and over a series of interrupted logins |
| `Uninterrupted.dfy`, `Backend.dfy` | the router, the authentication layer and the handler body as mutable objects, and the machine's runs they agree with |
| `Framing.dfy` | the adapter and the length-prefixed framing over its chunk queue |
| `DiffieHellman.dfy`, `KeyExchange.dfy`, `SecureChannel.dfy` | the three key exchanges over two channels, AES blobs, and the whole stack |

The server machine (`Server.Next`) takes one event at a time: a handler's next shared access, a writer
step, a clock tick, a new connection, or one half of a call into the account, session and purge
functions, which read first and enqueue later. A run is any list of events; an event that is not
possible leaves the state as it is, so theorems about `Run(init, events)` cover every interleaving. A handler's sends succeed or raise as the event says.
`issued` records every task ever enqueued; the eventual store is the committed store with the queue
run over it.

## Modelling assumptions

- Each database task is one atomic statement, and each read sees the committed tables only.
- Reads that the code makes in one SQL statement are one step; placing a frame on an adapter is one step.
- The clock does not go backwards. Times are reals. A reading of the clock is made in one step with the
  receive, read or enqueue next to it; hashing a password and drawing a token touch nothing shared.
- A payload's `message_id`, `to` and `type` are text and its `timestamp` is a number. `from` and
  `data` may be text, null, or a container, which SQLite cannot bind.
- Columns stamped when a task executes are not part of the store, except `received_at`, which the
  purge reads.
- Cryptographic primitives are functions that satisfy their laws: KEM correctness (sections 7.2 and
  7.3 of FIPS 203), X25519 agreement (section 6.1 of RFC 7748), HKDF as a function (section 2 of
  RFC 5869), and AES-GCM decryption (sections 7.1 and 7.2 of NIST SP 800-38D). bcrypt's check is an
  arbitrary predicate. PEM and JSON encodings are inverse pairs. `KeyExchange.LawfulSuiteExists`
  shows that the key-exchange laws can be met together.

## Findings

Where the code does not do what its documentation says, the model follows the code.

- `README.md:183-190` says that an immediate replay is rejected. Whether it is depends on the writer:
  `ReplayProtection.ReplayRace` proves that a second copy of a frame passes the check if and only if
  the writer has executed no more than the tasks queued before the first copy's record, and
  `ReplayProtection.AcceptedAtMostOnce` that an id is accepted at most once when the queue drains
  between frames that carry it.
- The default purge window of 300 seconds (`backend/db.py:45`) is too short: for frames dated ahead of
  the server clock, which `backend/server.py:144` accepts up to 30 seconds ahead, and for any frame,
  because its age check and its lookup are two steps (`backend/server.py:143`, `backend/server.py:157`)
  with a purge possibly in between. `ReplayWindow.PurgeWindowIsExact` proves, frame by frame and over
  every interleaving, that a recorded frame can be accepted again by a lookup at most `delay` after its
  timestamp has left the window if and only if the purge window is shorter than 300 seconds plus the
  lead the frame had on the server clock when it first arrived plus the delay. The default is thus
  exactly enough for a frame that was not dated ahead and whose check and lookup are made at one
  moment. For all frames the server takes in, 330 seconds plus the delay are needed and enough
  (`ReplayWindow.ServerWindowIsNeeded`, `ReplayWindow.ServerWindowSuffices`); and as nothing bounds
  the delay, no window is enough for good (`ReplayWindow.NoWindowSuffices`).
- A chat message whose `from` is null or a container, or whose `data` is a container, is acknowledged
  (`backend/server.py:166-198`) and never stored (`backend/db.py:134-144`, `backend/db.py:229-238`).
  `Limits.AcknowledgedIsKeptIffStorable` gives the exact condition.
- Two different payloads under one `message_id` can leave a row marked delivered that nobody was
  handed: the second insert fails (`backend/db.py:135`), its update does not (`backend/db.py:241-248`).
  `Limits.CollidingIdsMarkTheWrongRow` gives the exact condition; the delivery results therefore ask
  for one content per id.
- The handler binds `username` before it checks the password (`backend/server.py:95-102`), so the
  cleanup of a refused connection removes the route of the user it named (`backend/server.py:204-205`)
  although that user is connected elsewhere. `Sessions.CleanupRemovesByName` proves it for every
  refused AUTH payload, and that no other route is touched. A connection that did log in does the same
  to a newer one of its user (`Sessions.SecondLoginLosesRoute`).
- `register_user` checks the committed table only (`backend/auth.py:94-99`), so a second registration
  of a name reports success until the writer has reached the first one's insert, and its password is
  then dropped (`Sessions.RegistrationRace`, `Sessions.RegistrationOutcome`).

## Model

| member | source | states |
|---|---|---|
| Store.RunTasksHead | backend/db.py:66-78 | executing the oldest queued task first does not change what the whole queue leads to |
| Store.RunTasksKeeps | backend/db.py:203-248 | no task changes an account, the content of a message row, or the user and expiry of a session, and none revives an invalidated session |
| Store.MessageKeys | backend/db.py:229-238 | a message row exists exactly when the table began with it or a storable insert for its id ran |
| Store.MessageOrigin | backend/db.py:229-238 | a row's content is that of the starting table or of an insert that ran |
| Store.DeliveredRows | backend/db.py:241-248 | a row is delivered exactly when it began so or an update ran after the row existed |
| Store.RevokedSessions | backend/db.py:221-226 | a session is invalidated exactly when it began so or an invalidation ran while it existed |
| Store.SessionKeys | backend/db.py:212-219 | a session row exists exactly when the table began with it or an insert of it ran for a user with an account |
| Store.SessionAfterInsert | backend/db.py:212-226 | the first insert that ran fixes a session's user and expiry, and it is live until an invalidation enqueued later has run |
| Store.FirstAccountWins | backend/db.py:203-209 | an account exists exactly when it was there before or an insert for its name ran, and keeps the hash of the first |
| Database.RollbackIsNoOp | backend/db.py:71-78 | a task that raises when its turn comes leaves no trace in any of the four tables: the tasks before and after it do what they would do without it |
| Database.CommitsRunTasks | backend/db.py:66-78 | the committed store after a list of tasks does not depend on when each executed |
| Database.AheadAppend | backend/db.py:99-108 | an enqueued task reaches the writer exactly when no shutdown sentinel is ahead of it |
| Database.WriterReach | backend/db.py:67-70 | the writer gets to exactly the tasks in front of the first sentinel, in order, and leaves what is behind it |
| Database.Database.Enqueue | backend/db.py:106-108 | the queue grows by the task and the eventual store by exactly its effect, or by nothing after a shutdown |
| Database.Database.Stop | backend/db.py:99-101 | the sentinel is queued and the eventual store stays as it was |
| Database.Database.WriterLoop | backend/db.py:66-80 | the loop commits, in order and rolling back what raises, exactly the tasks ahead of the sentinel, reaches the eventual store, and leaves the rest untouched |
| Protocol.AcceptedExactly | backend/protocol.py:143-168 | the dictionaries validate accepts, field by field |
| Protocol.FirstProblem | backend/protocol.py:146-168 | which problem is reported: missing fields before the id, the id before the timestamp |
| Protocol.FieldsByName | backend/protocol.py:61-83 | which field of the dictionary is which field of the payload, in building and in reading |
| Protocol.BuiltPayloadsRoundTrip | backend/protocol.py:61-83 | built payloads, with an integer seq or none, pass validate exactly when their id has 16 characters or more, and read back as themselves |
| Server.Refusal | backend/server.py:136-153 | expired is exactly more than 300 seconds old or more than 30 ahead; the schema error is for malformed payloads and for others in time; only a chat in time passes |
| Preservation.AdvanceInv | backend/server.py:63-206 | every step of every handler keeps the whole invariant and only adds to what is already established |
| Preservation.NextInv | backend/server.py:59-207 | every event of the backend keeps the invariant |
| Preservation.ReachableInv | backend/server.py:214-239 | the invariant holds in every state of every run of a started server |
| Durability.EventualStep | backend/db.py:66-78 | a writer step leaves the eventual store unchanged; any other event changes it by exactly the task it enqueues |
| Durability.WriterRefinement | backend/db.py:56-80 | in every reachable state the committed store is a prefix of the issued tasks run in order and the eventual store is all of them |
| Durability.ScheduleIndependence | backend/db.py:13-21 | runs that enqueue the same tasks in the same order end in the same store, however the writer was scheduled |
| Durability.QueueDependencies | backend/server.py:163-188 | a delivery update finds its row and a session insert its user when they execute, so the latter fails only on a repeated token |
| Durability.AcceptedIsStored | backend/server.py:163-172 | an accepted message is in the eventual table, with its content, exactly when it can be stored |
| Durability.DeliveredWasHanded | backend/server.py:176-188 | a delivered row was addressed to the server or placed on a connection that logged in as its recipient |
| Durability.MarkedBecomesDelivered | backend/server.py:120-121 | an enqueued delivery update takes effect |
| Durability.NoAcknowledgedMessageLost | backend/server.py:163-198 | every acknowledged message was accepted and has its row if it can be stored, also on a database from earlier runs; 'delivered' is kept; a delivered row was handed over; a sent one is still found by a drain on a quiet system |
| Handover.HandedIsMarked | backend/server.py:115-121 | every chat payload placed on a connection has its delivery update enqueued, or the handler that placed it is about to |
| Handover.DeliveredIffHanded | backend/server.py:184-188 | once no handler is about to mark it, a stored message for a user becomes delivered if and only if it was handed to a connection of its recipient |
| Durability.RowsAreWriteOnce | backend/db.py:229-248 | a committed row keeps its content for ever and never returns from delivered |
| Durability.DeliveredPayloadIsTheAcceptedOne | backend/server.py:115-120 | a chat payload on any connection, forwarded or drained later, also from a row of an earlier run, equals the accepted one in all five fields |
| Limits.AcknowledgedIsKeptIffStorable | backend/server.py:163-198 | an acknowledged message is kept if and only if its sender is text and its text no container |
| Limits.CollidingIdsMarkTheWrongRow | backend/server.py:163-198 | of two payloads under one id only the first is stored; nobody is handed it, and its row is marked delivered exactly when the second one takes a path that delivers |
| ReplayProtection.SeenIsRecorded | backend/db.py:251-258 | without purges the seen table holds exactly what it began with and every executed record |
| ReplayProtection.ReplayRejected | backend/server.py:155-161 | once a record of an id has committed, every later check of the id rejects |
| ReplayProtection.SettledStays | backend/server.py:155-163 | a committed id with no handler between check and record is never accepted again, under any interleaving |
| ReplayProtection.DrainedQueueEndsAcceptance | backend/server.py:155-163 | an id accepted before the queue drained, however often, is not accepted again |
| ReplayProtection.AcceptedAtMostOnce | backend/server.py:155-163 | if the queue drains between frames carrying an id, the id is accepted at most once under any interleaving |
| ReplayProtection.ReplayRace | backend/server.py:155-172 | a frame sent twice in a row is accepted twice exactly when the writer has not reached the first copy's record |
| ReplayWindow.PurgedFramesStayRejected | backend/server.py:142-161 | with purges at least 300 seconds plus this frame's lead plus a delay wide, every lookup of the recorded frame at most the delay after its timestamp has left the window rejects it, under any interleaving and however others are dated |
| ReplayWindow.ReadAtOnceStaysRejected | backend/server.py:142-161 | the case without delay: age check and lookup at one moment, purges at least 300 seconds plus the frame's lead wide, 300 for one not dated ahead |
| ReplayWindow.PurgeWindowIsExact | backend/db.py:261-268 | some run accepts a recorded frame again, with a lookup at most the delay after its timestamp has left the window, if and only if the purge window is shorter than 300 seconds plus its lead on arrival plus the delay |
| ReplayWindow.NoWindowSuffices | backend/db.py:261-268 | without a bound on the time from age check to lookup, for every purge window some run accepts a recorded frame again |
| ReplayWindow.ServerWindowSuffices | backend/server.py:144 | with purges at least 330 seconds plus the delay wide no recorded frame is accepted again by a lookup within the delay, however it is dated |
| ReplayWindow.ServerWindowIsNeeded | backend/server.py:144 | a frame dated 30 seconds ahead is taken in, and any narrower window lets some run accept it again |
| Replies.OneReplyPerRequest | backend/server.py:128-198 | replies answer requests one for one, in order, with the request's id and the error its age and type on arrival call for; while no send of a reply fails, every consumed request but the one in work has exactly one, also after the handler has ended |
| Replies.FramesMatchConnection | backend/server.py:104-120 | every frame on a connection is under that connection's key, and the first one answers AUTH: its token under the AUTH payload's id, or one error |
| Replies.StepSendsElsewhere | backend/server.py:184-187 | a handler places only chat frames on other connections |
| Client.AwaitAck | backend/client.py:136-153 | the wait loop stops at the first error or matching acknowledgement and reads nothing after it |
| Client.RunChatClient | backend/client.py:114-156 | the auth reply is judged first, then the wait loop's verdict is returned |
| Client.WaitSkipsChat | backend/client.py:136-153 | drained and forwarded chat frames do not affect the verdict |
| Client.ClientVerdict | backend/client.py:128-169 | the client reports success only if the server accepted that very payload, with the status it was given, and is decided as soon as the server replied |
| Client.RefusedClientStops | backend/client.py:118-121 | the client sees a refused AUTH exactly when the server refused it |
| Sessions.SessionValidity | backend/auth.py:106-142 | a token is valid exactly while its row is committed, unexpired and never invalidated, and then it predates this run or an authenticated login of that user drew it, at most an hour before its expiry |
| Sessions.SessionNeverRevives | backend/auth.py:127-147 | an expired or revoked committed token is never valid again |
| Sessions.TokenLifetime | backend/auth.py:106-147 | from the execution of its insert a token names exactly its user, exactly until its expiry or a later invalidation |
| Sessions.LoginTokenLives | backend/auth.py:121-142 | after a granted login with a new token and whatever follows, once its insert has run, the token names the user for 3600 seconds unless an invalidation of it ran |
| Sessions.LogoutEndsSession | backend/auth.py:145-147 | a logout ends the session exactly if its insert was enqueued before, once the writer has got to it |
| Sessions.ExpiredSessionIsInvalidated | backend/auth.py:134-140 | validating a token enqueues an invalidation exactly for a committed, uninvalidated and expired one |
| Sessions.RegistrationAccepted | backend/auth.py:91-99 | an account is enqueued exactly for a non-empty name and password with no committed account |
| Sessions.RegistrationOutcome | backend/auth.py:85-99 | registrations are enqueued only for names without an account at the start, and the account gets the password of the first one enqueued |
| Sessions.RegistrationRace | backend/auth.py:85-99 | a second registration of a new name also reports success exactly while the writer is short of the first one's insert, and the first password stays |
| Sessions.RouterEntriesAreLive | backend/router.py:17-31 | every entry leads to an open connection whose handler logged in as that user, with that connection's key |
| Sessions.CleanupRemovesByName | backend/server.py:95-206 | an AUTH payload that does not log in enqueues nothing, is answered by exactly the schema or the authentication error, and costs exactly the user it names the route, although that leads to another open connection that did log in |
| Sessions.LeavingDropsRoute | backend/server.py:202-206 | a leaving handler removes its name's entry also when it leads to another connection, which stays open and logged in |
| Sessions.SecondLoginLosesRoute | backend/server.py:202-206 | a second connection of a user keeps its route if the first leaves before it logs in, and loses it if the first leaves afterwards |
| Mailbox.DrainRun | backend/server.py:113-125 | a drain cut short after n sends has delivered the first n rows in order and marked exactly those |
| Mailbox.VisitRun | backend/server.py:79-131 | a connection that logs in, is cut off in its drain and leaves, followed by the writer: token and prefix went out, exactly that prefix is marked, nothing else moved |
| Mailbox.VisitConserves | backend/db.py:189-196 | the delivered prefix in front of whatever is pending afterwards is the pending list from before |
| Mailbox.InterruptedDrainsConserve | backend/server.py:113-125 | over any run of interrupted logins what went out on their connections, in order, followed by what is still pending is a pending list of the start: nothing twice, all in created_at order, nothing lost |
| Mailbox.PendingListExists | backend/db.py:189-196 | there is always a list for a drain to read |
| Mailbox.PendingListMeans | backend/db.py:189-196 | the list is exactly the rows for the user still 'sent', each once, in created_at order |
| Mailbox.DrainedFrame | backend/server.py:116-121 | the k-th frame and task of a drain, field by field |
| Uninterrupted.ServeRun | backend/server.py:155-198 | the loop body run alone enqueues exactly these tasks, forwards exactly this frame and ends with this reply |
| Uninterrupted.MessagePass | backend/server.py:155-198 | one chat payload in time: its tasks, the connection it is forwarded to, and the reply with its status, in the payload's own fields |
| Uninterrupted.RequestJudged | backend/server.py:136-153 | which error answers which payload: malformed, more than 300 seconds old or 30 ahead, no chat, in this order |
| Uninterrupted.BrokenFrameEnds | backend/server.py:129-134 | a closed connection and an undecodable frame end the loop without a reply |
| Uninterrupted.ForwardedUnconfirmed | backend/server.py:189-194 | if the acknowledgement of a forwarded payload cannot be sent, the sender is told 'sent' instead |
| Uninterrupted.AuthOutcomeExactly | backend/server.py:83-102 | a malformed AUTH payload gets the schema error, any other that does not log in the authentication error |
| Uninterrupted.LoginRun | backend/server.py:79-111 | a granted login enqueues its session, sends its token, and only then enters the router under its own key |
| Backend.Router.Register | backend/router.py:17-20 | the table stays the record of the calls so far and changes as the machine's Join step changes its routes |
| Backend.Router.Unregister | backend/router.py:23-26 | the table stays the record of the calls so far and changes as the machine's Drop step changes its routes |
| Backend.Router.GetConnection | backend/router.py:29-32 | returns the entry of the last registration of the name over all calls so far, and nothing exactly when none or an unregistration came last |
| Backend.Auth.RegisterUser | backend/auth.py:85-99 | succeeds exactly for a non-empty name and password not yet committed, and enqueues the account then |
| Backend.Auth.Login | backend/auth.py:106-124 | issues the token exactly when the committed hash verifies, with a session of one hour enqueued |
| Backend.Auth.ValidateSession | backend/auth.py:127-142 | names the user of a live token, and enqueues an invalidation exactly for an expired one |
| Backend.ClientHandler.Authenticate | backend/server.py:79-111 | replies, enqueues and registers as the outcome of the AUTH payload says, the route only after the token went out; the claim is the name the payload presented, granted or not |
| Backend.ClientHandler.DrainOffline | backend/server.py:113-125 | of the pending rows of the committed table, in order, sends and marks the longest prefix that goes through |
| Backend.ClientHandler.HandleChat | backend/server.py:155-198 | the path's tasks, forward and reply, also when the recipient is the sender's own connection |
| Backend.ClientHandler.HandleRequest | backend/server.py:134-198 | refused payloads get their error and enqueue nothing; fresh ones are recorded, stored, forwarded and answered exactly as their path says |
| Backend.ClientHandler.Cleanup | backend/server.py:202-206 | the claimed name leaves the router and the connection is closed |
| Framing.WebSocketAdapter.Recv | backend/adapter.py:32-44 | the loop over buffer and queue does what the reading specification says, sentinels included |
| Framing.WebSocketAdapter.Close | backend/adapter.py:46-49 | no read waits on a closed adapter: one that had its data is unaffected, any other gets everything that had arrived; nothing sent is lost |
| Framing.RecvExact | backend/utils/protocol.py:63-83 | the collecting loop, with a decreasing count, does what the exact-read specification says |
| Framing.SendMsg | backend/utils/protocol.py:29-42 | exactly one chunk is queued, four length bytes with the most significant first and the message, or none for more than 16777216 bytes |
| Framing.RecvMsg | backend/utils/protocol.py:45-60 | a message is exactly the bytes its four header bytes announce, most significant first; only a header over 16777216 is refused |
| Framing.ReceiveAll | backend/utils/protocol.py:45-60 | receiving repeatedly returns exactly the sent payloads and leaves exactly what was queued behind |
| Framing.ExactReadsStream | backend/utils/protocol.py:63-83 | an exact read returns precisely the next n bytes of the stream and leaves precisely the rest |
| Framing.ExactOutcome | backend/utils/protocol.py:74-82 | a read raises exactly when a sentinel is met with nothing buffered before its last byte; otherwise it succeeds exactly when the bytes are there |
| Framing.ExactThenArrivals | backend/utils/protocol.py:63-83 | an exact read that ended is unaffected by later arrivals; one that waits goes on with the missing bytes behind the pieces it holds |
| Framing.MsgThenArrivals | backend/utils/protocol.py:45-60 | a waiting receive goes on exactly where it stands, in the header or in the body, with whatever arrives |
| Framing.RecvThenArrivals | backend/adapter.py:34-40 | a waiting read goes on with what arrives as if it had been there from the start |
| Framing.NoTruncatedPayload | backend/utils/protocol.py:45-83 | a received payload is exactly that of the frame at the head of the stream, for any chunks and sentinels |
| Framing.FrameLayout | backend/utils/protocol.py:39-42 | a frame is its length in four bytes, most significant first, and the payload |
| Framing.MessageIsAnnounced | backend/utils/protocol.py:52-60 | what a receive returns is what the first four bytes of the stream announce |
| Framing.AnnouncedIsReceived | backend/utils/protocol.py:52-60 | an announced message whose bytes are on their way is returned, and one announced too large refused |
| Framing.RecvOutcome | backend/adapter.py:32-44 | one recv gathers chunks up to the first sentinel it needs: the first n bytes, or what there is at the sentinel, or it waits |
| Framing.FramesArePrefixFree | backend/utils/protocol.py:29-42 | a stream has at most one frame at its head |
| Framing.FramingRoundTrip | backend/utils/protocol.py:29-83 | any split of the frames into non-empty chunks is received as the same payloads in order |
| Framing.SentinelEndsStream | backend/server.py:129-132 | a sentinel after the last frame ends the message loop |
| DiffieHellman.SecretsAgree | backend/crypto/dh.py:60-72 | both sides compute g to the product of the exponents, for every modulus |
| DiffieHellman.PowLaws | backend/crypto/dh.py:60-72 | the power is exponentiation |
| KeyExchange.SecretsMatch | backend/crypto/kex_handlers.py:45-132 | in each mode the two sides derive the same secret from their transcripts |
| KeyExchange.KexAgrees | backend/crypto/kex_handlers.py:45-132 | under every schedule some side can move until both have finished; then they hold the same secret and AES key and both channels are empty |
| KeyExchange.KexValue | backend/crypto/hybrid.py:66-83 | after a complete exchange the frames on both channels, the secret both sides hold and the AES key are exactly these, in each mode, in terms of the primitives |
| KeyExchange.InfoStrings | backend/crypto/kdf.py:31 | the info strings and mode markers byte by byte |
| KeyExchange.GroupsMustMatch | backend/crypto/kex_handlers.py:79-85 | a classical peer key from another group is refused |
| KeyExchange.KexCompletes | backend/crypto/kex_handlers.py:45-132 | however far an exchange has got, it can be completed; so complete schedules exist in every mode |
| KeyExchange.MismatchRefused | backend/server.py:64-69 | with different modes the server sends only the error, under every schedule |
| SecureChannel.BlobRoundTrip | backend/crypto/aes.py:41-99 | a blob exists exactly for a 32-byte key, is the 12-byte nonce and the sealed text, 28 bytes longer, and decrypts to its plaintext |
| SecureChannel.DecryptReads | backend/crypto/aes.py:84-99 | any blob of at least 28 bytes is opened under its first 12 bytes as nonce; a shorter one or another key length is refused |
| SecureChannel.HeldKeysAgree | backend/crypto/kdf.py:31-48 | after the exchange both sides hold the same 32-byte key, derived from the agreed secret |
| SecureChannel.StackRoundTrip | backend/utils/protocol.py:29-60 | payloads encoded, encrypted, framed, rechunked, deframed, decrypted and decoded under the agreed keys come out unchanged |

## Left out

- Cryptographic internals, secrecy, unforgeability and randomness: primitives are modelled by their laws only.
- JSON and PEM text: assumed to be inverse pairs.
- A `from` or `data` field that is a number or a boolean, which SQLite would convert to text; a `to` field that is not text; a `timestamp` of NaN, which SQLite stores as null.
- The `seq` field of a chat payload beyond its check in validate: the server neither stores nor reads it.
- Exactly-once delivery under concurrency: two logins can drain the same rows before the writer marks them, so the mailbox results have the queue drain in between.
- "Delivered" as anything more than placed on the connection of a handler that logged in as the recipient.
- The agreement of a payload's `from` with the logged-in user, which the server does not check.
- A new read after one that ended on a single sentinel in mid-frame: the model has it wait for the next chunk, as the code does, and does not force an error.
- Sockets, asyncio bridges and FastAPI: they are FIFO transport of non-empty chunks and a sentinel.
- Two threads sending on one raw TCP socket: a send is one queue put, as on the adapter.
- The five-second limit of the database shutdown, and thread start-up.
- The interactive client loop, its listener thread and its byte and time counters.
- The client's reaction to a refused mode, where it misreads the error frame as a public key.
- The frontend, dashboard, benchmarks, plots, command lines and console output.

# MyMusic: a verified model

MyMusic is a music player with a desktop client (`MyMusic/`) and several servers (`Server/`). This
project models its hardest parts in Dafny and proves what they promise.
`dafny verify dfyconfig.toml` checks everything.

1. **Single login across SessionServers** (`SessionLogin`, `SessionErasing`, `SessionOverlap`,
   `SessionLimits`, `SessionRegistry`, `SessionSequential`, `SessionLock`, `LeasedLock`, `Tokens`).
   A user may be logged in once over all servers. `SessionLogin` is a state machine whose transitions
   are single accesses to shared state: Redis commands, `UserManager` accesses, and the two halves of
   `ClearSession`. Any number of logins, remote kicks, handshakes and clean-ups interleave.
   `SessionErasing` says when two entries of a user can exist, and `SessionOverlap` when a login can do
   without the lock. `SessionRegistry` has the objects themselves, with each method run alone;
   `SessionSequential` proves that logins and clean-ups whose transitions run without interruption do
   exactly what those methods do. `LeasedLock` is the Redis lock, and `SessionLock` runs it and the
   protocol together.
2. **Upload** (`Base64`, `Frames`, `ServerReceiver`, `Spool`, `SpoolKeys`, `Storage`,
   `UploadPipeline`, `CaseClash`). Chunks of a file are encoded, framed, cut into arbitrary reads,
   reassembled, decoded, collected in memory or a temporary file, and streamed on. Each stage has its
   round trip or refinement, and `UploadPipeline` composes them; `CaseClash` is what happens when two
   names meet in one temporary file.
3. **Server to client** (`SendQueue`, `ClientReceiver`, `DownLink`). The send queue with partial
   writes, and the client's receive loop exactly as written, with the stream cursor explicit.
4. **Sound** (`Decay`, `Filters`, `Tones`, `Shelves`, `Stereo`, `Equalizer`, `ToneControl`). The
   filters over the reals, their stability, what they do to constants and to tones, and the in-place
   processing of interleaved 16-bit buffers.
5. **Ordered state and parsers** (`Playlist`, `ConnectionPool`, `ServerSentEvents`, `UrlCodec`).

`Bytes` holds what the codecs share.

## Hypotheses

- `LockedRun` assumes that every login of the user in question obtains the lock; logins of other users
  and all clean-ups may fail to, and the Redis commands of a clean-up may fail. `ApartRun` only assumes
  that a login of the user without the lock overlaps nobody inside that user's critical section. On the
  leased lock, critical sections end inside the lease.
- Redis commands of a login succeed, and the kick RPC reaches the peer; `uip_` values are the names
  servers list each other under. User ids are not 0. A connection may log in more than once.
- Session ids, lock identifiers and, where stated, tokens are fresh.
- For an upload: the file is below 2 GiB, the disk answers, no temporary file of another run is left
  behind, and no request makes its upload spill into the temporary file of another, as when the file
  system does not take the names of two uploads for the same. The comments at
  Server/SessionServer/LogicSystem.cpp:371-373 show that the server runs on Windows, whose file
  systems ignore case.
- Values of `sin`, `cos`, `pow` and `sqrt` are parameters with their basic facts: alpha and A are
  positive, the cosine lies inside (-1, 1), and the root squared is A. A buffer has whole frames,
  since the source reads the right sample of the last one unchecked.

## Where the code differs from what it is for

Each of these has a concrete run or input, and a theorem that says exactly when it happens or how far
it goes.

- Two entries of `_sessions` can have the same user for the moment in which `ClearSession` erases
  the older one without the lock of that user (`SecondEntryOccurs`, `SecondEntryIsErased`).
- A login that does not obtain the lock is not refused. One that overlaps another can leave two
  sessions (`LockIsNeeded`); one that overlaps nobody does no harm (`SingleSessionApart`).
- A token can be used twice if two SessionServers read it before either deletes it
  (`TokenPassesTwice`, `TokenPassesAgain`).
- Uploads whose names differ only in case share a temporary file (`CaseMixesInput`, `CaseMixesUploads`,
  `RunRefinesIff`).
- The client loses messages that arrive together in one read (`TwoMessagesInOneRead`, `DeliveredIff`).
- The event splitter normalises line ends of the buffer again on every call, so CR CR LF is read
  differently under different chunkings (`CutMatters`, `ChunkingDoesNotMatter`). A lone CR is not a line end for it,
  unlike in section 9.2.5 of the WHATWG HTML Standard.
- Announced sizes are wrong from 2 GiB on (`TwoGiB`, `AnnouncedSize`), and message bodies above 65535
  bytes break the frame (`LongBody`, `PostedIffFits`).

## Model

| member | source | states |
|---|---|---|
| `SessionLogin.RunInv` | Server/SessionServer/LogicSystem.cpp:217-259 | For each user whose logins obtain their locks, the invariant of the login protocol holds in every state of every run: whoever holds the user's lock and where it stands decides which session may be in `_sessions` with that user. |
| `SessionLogin.SingleSession` | Server/SessionServer/LogicSystem.cpp:217-259 | Over any number of servers, users, connections and clean-ups, for a non-zero user whose logins obtain their locks: at most one session in all `_sessions` has that user, not counting one that `ClearSession` is about to erase; while the user's lock is free that session is named by `usession_`, `uip_` and its server's `UserManager` entry. |
| `SessionLogin.SecondEntryIsDoomed` | Server/SessionServer/Server.cpp:18-28 | Counting every entry of `_sessions`: of two with the same user, one is being erased by a `ClearSession` that holds `_mutex`. |
| `SessionErasing.SecondEntryIsErased` | Server/SessionServer/Server.cpp:18-28 | More exactly: the `ClearSession` that is erasing one of the two was called by somebody who does not hold the lock of that user. |
| `SessionLogin.StaleStays` | Server/SessionServer/Session.cpp:211-235 | Once a session is not the one named and no clean-up of it has passed the identity check, no transition other than a new login of that very session changes that. |
| `SessionLogin.StaleCleanupStep` | Server/SessionServer/Session.cpp:211-235 | Each step of a stale session's clean-up, lock obtained or not and Redis answering or not, leaves the user's three keys, all entries that name other sessions, and all other sessions unchanged. |
| `SessionLogin.ReplacedIsStale` | Server/SessionServer/LogicSystem.cpp:251-258 | Setting `usession_` to a newer session makes every other session of the user stale, including those whose clean-up is half done. |
| `SessionLogin.StaleCleanupHarmless` | Server/SessionServer/Session.cpp:211-235 | Along any run: after a newer login has set `usession_`, every step of every clean-up of the replaced session is harmless, in any order and any number. |
| `SessionLimits.LockIsNeeded` | Server/SessionServer/LogicSystem.cpp:220-223 | A run in which one login of one user goes on without the lock, all others obtaining theirs, ends with two active sessions of that user. |
| `SessionOverlap.SingleSessionApart` | Server/SessionServer/LogicSystem.cpp:217-259 | Logins of the user may go on without the lock: there is still at most one session, named while nobody is inside, in every run in which no such login comes while another is inside the critical section of the user, and nobody enters before it leaves. |
| `SessionOverlap.Locks` | Server/SessionServer/LogicSystem.cpp:217-259 | Every run without such an overlap is, up to who the lock names, a run of the same length in which every login of the user obtains the lock. |
| `SessionLimits.SecondEntryOccurs` | Server/SessionServer/Session.cpp:211-218 | A run with every lock obtained in which two entries of `_sessions` have the same user, so the exception in `SecondEntryIsDoomed` is needed: a clean-up that read `_user_uid` before the login holds another user's lock. |
| `SessionRegistry.SessionServer.ClearSession` | Server/SessionServer/Server.cpp:18-28 | Erases the session, and the entry of its user if that names it; nothing else of the server changes. |
| `SessionRegistry.UserManager.RemoveSession` | Server/SessionServer/UserManager.cpp:23-32 | Removes the entry exactly if it names the given session; every other entry stays. |
| `SessionRegistry.UserManager.GetSession` | Server/SessionServer/UserManager.cpp:9-15 | Finds the session of the user's entry if and only if there is one. |
| `SessionRegistry.SessionServer.NotifyKick` | Server/SessionServer/SessionServiceImpl.cpp:4-21 | Clears the session that the user's entry names, its entry included, and does nothing if there is none. |
| `SessionRegistry.SessionServer.Login` | Server/SessionServer/LogicSystem.cpp:147-271 | Run alone: the answer by token and database; on success the whole new state of the server, of the peer that `uip_` names, and of the keys (prior session and its entry cleared, new session bound and named, new token set); on failure only a token that passed is gone. |
| `SessionRegistry.SessionServer.DealException` | Server/SessionServer/Session.cpp:211-235 | Always clears the session; of the three keys exactly those go whose deletion is answered, and only under the lock and if `usession_` names this session. |
| `SessionRegistry.SessionServer.OnTimer` | Server/SessionServer/Server.cpp:39-81 | Removes and closes exactly the sessions whose last heartbeat is more than 60 seconds ago and returns the number of the others; each table loses exactly the entries that name one of those sessions of the right user, the Redis keys as far as locks and commands are granted. |
| `SessionRegistry.SweepOne` | Server/SessionServer/Server.cpp:71-74 | One more clean-up on top of those done gives the tables of the larger set, whatever the order. |
| `SessionRegistry.ClearedMeans` | Server/SessionServer/Server.cpp:18-28 | Session by session and entry by entry: exactly the session goes, and the entry of its user exactly if it names the session. |
| `SessionRegistry.CleanedMeans` | Server/SessionServer/Session.cpp:211-235 | Key by key: a clean-up deletes each of the three keys of its user exactly if it has the lock, `usession_` names its session, and the deletion is answered; other users keep theirs. |
| `SessionRegistry.LoggedInMeans` | Server/SessionServer/LogicSystem.cpp:217-259 | After a login: the new session has the user and is named by its server's entry; of the others exactly the one that the entry on the server in `uip_` named is gone. |
| `SessionSequential.ClearMatches` | Server/SessionServer/Server.cpp:18-28 | The two transitions of `ClearSession` change one server as the method does, and no other server. |
| `SessionSequential.CleanupAlone` | Server/SessionServer/Session.cpp:211-235 | The transitions of a clean-up, run without interruption, end after at most eight, whether or not the lock and each Redis command are granted, in the state that `AfterCleanup` gives. |
| `SessionSequential.CleanupMatches` | Server/SessionServer/Session.cpp:211-235 | From its start to its end, a clean-up run alone changes every server and the keys exactly as `DealException` does, for every outcome of lock and commands, and nothing else. |
| `SessionSequential.LoginAlone` | Server/SessionServer/LogicSystem.cpp:175-268 | The transitions of an accepted login, run without interruption, end after at most twelve in the state that `AfterLogin` gives. |
| `SessionSequential.LoginMatches` | Server/SessionServer/LogicSystem.cpp:161-268 | From the check to its end, a login run alone changes every server (its own, the one kicked, any other) and the keys exactly as `SessionServer.Login` does, and nothing else. |
| `SessionSequential.RefusedMatches` | Server/SessionServer/LogicSystem.cpp:175-202 | A login that the database refuses after the check leaves only the used-up token behind. |
| `SessionLock.RunInv` | Server/SessionServer/LogicSystem.cpp:217-259 | Protocol and leased lock side by side: in every state, the protocol's lock is held by exactly those that hold the lease, and everyone is where its client of the lock is. |
| `SessionLock.TriesAreMoves` | Server/SessionServer/DistributeLock.cpp:20-33 | Every try of a waiting login or clean-up, whatever its answer, is a move of both machines together; only a granted one changes the protocol. |
| `SessionLock.Projects` | Server/SessionServer/RedisManager.cpp:183-202 | If no lease ends before its holder releases it, every run of both together is a run of `SessionLogin` to the same state, with all locks of a user obtained if none of its logins went on without. |
| `SessionLock.SingleSessionOnLeases` | Server/SessionServer/LogicSystem.cpp:217-259 | So the single-session theorem holds on the leased lock itself, for every clock, expiry and lost reply that keeps leases from being outlived. |
| `Tokens.CheckTokenMeansLastSet` | Server/SessionServer/LogicSystem.cpp:765-772 | In any run `CheckToken` succeeds if and only if the token is the last one set for the user and nothing has removed it since (expiry, use by a login, clean-up). |
| `Tokens.TokenPassesAgain` | Server/SessionServer/LogicSystem.cpp:161-175 | On any number of servers, with fresh tokens: a token passes a later check if and only if that check is for the same user on another server while the first login is between its `Get` and its `Del`, the token untouched in between. |
| `Tokens.UsedOnceIff` | Server/SessionServer/LogicSystem.cpp:161-175 | Over a whole run, every token is used at most once if and only if no two checks overlap in this way. |
| `Tokens.TokenPassesOnce` | Server/SessionServer/LogicSystem.cpp:161-175 | In particular with one SessionServer, although `Get` and `Del` are separate commands and handshakes interleave. |
| `Tokens.TokenPassesTwice` | Server/SessionServer/LogicSystem.cpp:164-175 | With two SessionServers a run exists in which one token passes twice. |
| `Tokens.TokenStep` | Server/StatusServer/StatusServiceImpl.cpp:97-102 | Every transition of the protocol either sets the user's token, removes it, or leaves it alone, as classified. |
| `LeasedLock.AcquireLock` | Server/SessionServer/DistributeLock.cpp:12-37 | The retry loop acquires exactly if a try before the deadline is answered OK after tries that were all told to retry; a null or error reply ends it. |
| `LeasedLock.LeaseSafety` | Server/SessionServer/DistributeLock.cpp:12-57 | For any clients, clock and expiry: never two clients inside an unexpired lease on one name. |
| `LeasedLock.ReleaseSafety` | Server/SessionServer/DistributeLock.cpp:39-57 | A release, even after its own lease has expired, removes no key with another client's identifier and ends nobody else's lease. |
| `LeasedLock.LeaseIsMutex` | Server/SessionServer/RedisManager.cpp:183-202 | If critical sections end inside the lease, whoever starts to hold a name finds nobody holding it. |
| `LeasedLock.PresentExactly` | Server/SessionServer/DistributeLock.cpp:12-57 | At any moment the key of a name is there if and only if a try set it less than ten seconds ago and no release with its identifier has arrived since. |
| `LeasedLock.GrantedIff` | Server/SessionServer/DistributeLock.cpp:20-33 | A try is told that it has the lock if and only if the key is absent and the answer arrives; the lease is then ten seconds. |
| `LeasedLock.Handover` | Server/SessionServer/DistributeLock.cpp:39-57 | A release that arrives inside the lease frees the name, and the next try on it holds it, however soon it comes. |
| `LeasedLock.TenSecondsFree` | Server/SessionServer/DistributeLock.cpp:20-33 | The clock moves by its ticks only, and after ten seconds every name is free, whoever failed to release. |
| `Base64.DecodeBase64` | Server/SessionServer/LogicSystem.cpp:48-71 | The in-place steps (pad, replace, regroup, truncate) compute `Decode`, including where the library rejects the text. |
| `Base64.RoundTrip` | Server/SessionServer/LogicSystem.cpp:48-71 | Decoding undoes the encoding of section 4 of RFC 4648 for every byte string, also in the alphabet of section 5 and with padding stripped. |
| `Base64.TruncationArithmetic` | Server/SessionServer/LogicSystem.cpp:66-69 | The number of non-padding characters times 3 / 4 is exactly the number of encoded bytes. |
| `Base64.ChunkLength` | MyMusic/MyMusic/UploadWidget.cpp:150-163 | A 32768-byte chunk encodes to 43692 characters, leaving 21843 bytes of the frame length. |
| `Base64.DecodesIff` | Server/SessionServer/LogicSystem.cpp:48-71 | A text decodes if and only if all its characters belong to one of the two alphabets or are padding; the result has three bytes for every four characters that are not padding, wherever the padding stands. |
| `Base64.Alphabet` | Server/SessionServer/LogicSystem.cpp:48-71 | The digits of the encoding are those of Table 1 of RFC 4648. |
| `Base64.CharDigitIs` | Server/SessionServer/LogicSystem.cpp:48-71 | The decoder reads exactly these, and = as 0. |
| `Base64.GroupBits` | Server/SessionServer/LogicSystem.cpp:48-71 | Four digits and the three bytes they decode to are the same 24 bits. |
| `Base64.TestVectors` | Server/SessionServer/LogicSystem.cpp:48-71 | The encoding gives the test vectors for f, fo and foo of section 10 of RFC 4648. |
| `Frames.StreamPrefix` | MyMusic/MyMusic/tcpmanager.cpp:23-33 | Frames are self-delimiting: whole frames at the start of a stream are a prefix of its messages, and the rest is the stream of the others. |
| `Frames.FirstFrame` | MyMusic/MyMusic/tcpmanager.cpp:23-33 | Byte strings that start with frames and are equal start with the same message. |
| `Frames.NetworkOrder` | MyMusic/MyMusic/tcpmanager.cpp:23-33 | Id and length stand most significant byte first, and the body follows. |
| `ServerReceiver.AnyFragmentation` | Server/SessionServer/Session.cpp:85-182 | For any messages up to 65535 bytes and any read sizes, what is posted is a prefix of what was sent, and all of it once every byte has arrived. |
| `ServerReceiver.PostedIffFits` | MyMusic/MyMusic/tcpmanager.cpp:25-26 | Once every byte sent has arrived, what has been posted is what was sent if and only if no body is longer than 65535 bytes. |
| `ServerReceiver.WholeReads` | Server/SessionServer/Session.cpp:85-182 | For any messages up to 65535 bytes, empty ones included, reads that bring whole headers and whole bodies are possible, and post exactly these messages. |
| `ServerReceiver.Completions` | Server/SessionServer/Session.cpp:243-260 | A read may bring one byte, or all that is missing; a read of no bytes completes at once. |
| `ServerReceiver.LongBody` | MyMusic/MyMusic/tcpmanager.cpp:25-26 | The input: of a message with a body of 65536 bytes, however it is cut into reads, the first thing posted is an empty message. |
| `ServerReceiver.AllDelivered` | Server/SessionServer/MessageNode.h:31-37 | What is posted for each message has its body and, as a number from -32768 to 32767, the same 16 bits of id. |
| `ServerReceiver.FeedBytes` | Server/SessionServer/Session.cpp:85-182 | Bytes before plus bytes read are the frames posted plus the bytes pending, after any completions. |
| `ServerReceiver.Session.OnReadSome` | Server/SessionServer/Session.cpp:243-260 | One completion into the fixed buffer keeps all indices in bounds and follows the receiver's step function; what remains to be read decreases or the read completes. |
| `Spool.LogicSystem.UploadFileHandler` | Server/SessionServer/LogicSystem.cpp:293-462 | The handler's answer, the new spool and temporary files, and the upload it makes are those of `Handle`, in every branch: token, unknown key, file that does not open or is not written, storage failure, database failure. |
| `Spool.LogicSystem.SweepStale` | Server/SessionServer/LogicSystem.cpp:331-350 | Exactly the entries idle for more than 600 seconds and the older one of the same key are gone, with their files. |
| `Spool.LogicSystem.Append` | Server/SessionServer/LogicSystem.cpp:357-393 | Memory while it fits in 8 MiB, then the file, with the memory written out before the chunk; the state left by a file that does not open, or into which only a part is written. |
| `Spool.LogicSystem.Forward` | Server/SessionServer/LogicSystem.cpp:402-438 | What goes to storage is the entry's name and size and its content, or a first part of it if a write fails; the entry and its file are gone. |
| `Spool.HandleRefines` | Server/SessionServer/LogicSystem.cpp:293-462 | With successful I/O a request refines plain concatenation (content is all chunks since the first, memory at most 8 MiB and empty once spilled, `received` the total length, the temporary files exactly those of live entries) if and only if it does not make its upload spill while a file of that name is there. |
| `Spool.RunRefinesIff` | Server/SessionServer/LogicSystem.cpp:101-134 | Over every run of requests of any users: all refine plain concatenation if and only if none clashes in this way. |
| `Spool.RunRefines` | Server/SessionServer/LogicSystem.cpp:101-134 | A run without a clash does to the spools, and uploads, what plain concatenation does. |
| `Spool.ApartIsClean` | Server/SessionServer/LogicSystem.cpp:371-376 | No request clashes if no two uploads have names that the file system takes for the same. |
| `Spool.AnswersIff` | Server/SessionServer/LogicSystem.cpp:301-447 | The answer, from the request and the uploads as plain concatenations: TokenInvalid exactly for a bad token; Success exactly if the token is good, the text decodes, the upload is known or starts, the disk answers where the upload passes 8 MiB and, with the last chunk, storage and database succeed. |
| `Spool.FailureIsSwept` | Server/SessionServer/LogicSystem.cpp:377-393 | What a chunk leaves behind whose file does not open or is only partly written is gone when the next first chunk of that upload has swept. |
| `CaseClash.CaseMixesUploads` | Server/SessionServer/LogicSystem.cpp:371-376 | Two uploads whose names the file system takes for the same: the requests of the first carry its first n chunks, more than 8 MiB, and those of the second, from at most 600 seconds later, all its chunks, also more than 8 MiB. For all files, names and numbers, storage receives those n chunks followed by the second file, under its name and announced with its size. |
| `CaseClash.CaseMixesInput` | Server/SessionServer/LogicSystem.cpp:371-376 | The input: user 5 sends the first 257 chunks of A.mp3 and, five minutes later, all chunks of an a.mp3 above 8 MiB; storage receives the 257 chunks and then a.mp3. |
| `SpoolKeys.KeysDetermine` | Server/SessionServer/LogicSystem.cpp:321-326 | Map keys of different (user, sanitised name) pairs differ. |
| `SpoolKeys.FilesDetermine` | Server/SessionServer/LogicSystem.cpp:371-374 | Two pairs have the same temporary file if and only if the users are equal and the file system takes the names for the same. |
| `SpoolKeys.TmpNameIsOneComponent` | Server/SessionServer/LogicSystem.cpp:321-325 | Whatever name a client sends, the temporary file name has no path separator. |
| `SpoolKeys.SafeNameKeeps` | Server/SessionServer/LogicSystem.cpp:321-325 | Sanitising replaces path separators and colons by underscores and nothing else; doing it twice changes nothing. |
| `SpoolKeys.KeyAndFile` | Server/SessionServer/LogicSystem.cpp:326-374 | The map key and the file name of one upload, written out. |
| `Storage.SpoolReader.Read` | Server/SessionServer/LogicSystem.cpp:410-427 | Each read returns the next bytes of memory then file, and nothing only at the end. |
| `Storage.UploadAudio` | Server/SessionServer/StorageGrpcClient.cpp:106-140 | Blocks of 1 to 262144 bytes whose concatenation is what the reader had left, or a proper part of it if a write fails; success exactly if everything was written and the stream ended well. |
| `UploadPipeline.SendChunks` | MyMusic/MyMusic/UploadWidget.cpp:132-164 | The reading loop sends the chunks of the file in order with their sequence numbers and sizes. |
| `UploadPipeline.ChunksAre` | MyMusic/MyMusic/UploadWidget.cpp:140-162 | Message k of a file below 2 GiB, counted from 1, has this number, the size of the file, the bytes sent with it, and data that decode to bytes 32768 (k - 1) up to there; the last message is the one that reaches the end. |
| `UploadPipeline.AnnouncedSize` | MyMusic/MyMusic/UploadWidget.cpp:133-151 | The announced total is right if and only if the file is smaller than 2 GiB. |
| `UploadPipeline.TwoGiB` | MyMusic/MyMusic/UploadWidget.cpp:133-151 | The input: a file of 2 GiB announces the size -2147483648. |
| `UploadPipeline.UploadedOnceAtTheEnd` | Server/SessionServer/LogicSystem.cpp:313-438 | Under any interleaving with other uploads that does not clash, and chunk gaps of at most 600 seconds: one upload of the whole file with its size, with the last chunk, and none before; every chunk is answered with Success, the last one unless storage or database fail. |
| `UploadPipeline.BytesSentAreBytesStored` | MyMusic/MyMusic/UploadWidget.cpp:132-164 | End to end, for a connection that sends any messages among which the file's chunks are: for every non-empty file below 2 GiB, every cutting into reads and every interleaving without a clash, one stream goes to storage, under the file's name and size, in blocks of 1 to 262144 bytes that bring a first part of the file, and the whole file if the stream succeeds. |
| `UploadPipeline.OneUploadIsStored` | MyMusic/MyMusic/UploadWidget.cpp:132-164 | In particular the frames of one upload whose stream succeeds bring exactly its file, if no names meet that the file system takes for the same. |
| `SendQueue.SendOrder` | Server/SessionServer/Session.cpp:46-77 | In every interleaving of sends, partial writes, completions and errors: until an error the queue is non-empty exactly while one write is in flight, that write is the front; a message is accepted if and only if at most 1024 are queued; the wire is a prefix of the accepted messages, and nothing is written after an error. |
| `SendQueue.Drained` | Server/SessionServer/Session.cpp:262-284 | When the queue is empty, the wire holds every accepted message, whole and in order. |
| `SendQueue.CanDrain` | Server/SessionServer/Session.cpp:262-284 | From every state of every run without an error, the run can go on until the queue is empty and the wire holds every accepted message: the queue never gets stuck. |
| `SendQueue.NodesSnoc` | Server/SessionServer/MessageNode.h:41-48 | The frames of one more message are appended to those before. |
| `SendQueue.NodeIs` | Server/SessionServer/MessageNode.h:41-48 | The frame of a message: the 16 bits of its id and its length, most significant byte first, then the body. |
| `SendQueue.Session.Send` | Server/SessionServer/Session.cpp:62-77 | One call is one step of the queue: refused when full, else queued, and written at once only if nothing was queued. |
| `SendQueue.Session.HandleWrite` | Server/SessionServer/Session.cpp:262-284 | A completion pops the front and writes the next one; an error stops writing for good. |
| `ClientReceiver.TcpManager.OnReadyRead` | MyMusic/MyMusic/tcpmanager.cpp:85-112 | The slot, with the stream cursor explicit, hands on what `Call` says and keeps its state. |
| `ClientReceiver.StreamWordIs` | MyMusic/MyMusic/tcpmanager.cpp:90-96 | A stream read is the two bytes at the cursor, most significant first, or 0 where they have not arrived. |
| `ClientReceiver.DeliveredIff` | MyMusic/MyMusic/tcpmanager.cpp:85-112 | For every list of messages and every fragmentation: `handleMsg` gets exactly the messages sent if and only if, for each header, the words that lie behind it by four bytes for each earlier header of the same call (0 where nothing has arrived) are that header; the messages and the lengths of the calls decide this. |
| `ClientReceiver.OneHeaderEachDelivers` | MyMusic/MyMusic/tcpmanager.cpp:90-111 | If at most one header ends in the bytes of each call, exactly the messages sent are handled, a half-received body being carried over by the pending flag. |
| `ClientReceiver.TwoMessagesInOneRead` | MyMusic/MyMusic/tcpmanager.cpp:87-95 | Two small messages in one call: the second comes out wrong, because removing bytes does not rewind the cursor. |
| `DownLink.AcceptedIsHandled` | Server/SessionServer/MessageNode.h:41-48 | Send queue, any cutting into reads, and receive loop composed: once written, the messages handled are as many as those accepted, in order, each with the same body and the same 16 bits of id, if and only if the condition on messages and read lengths holds, and so if at most one header ends in each read. |
| `Filters.PeakingFilter` | MyMusic/MyMusic/Equalizer.h:15-35 | For all gains and all positive alpha and cosines inside (-1, 1): stable, with gain 1 at DC and at the Nyquist frequency. |
| `Filters.LowShelfFilter` | MyMusic/MyMusic/ToneControl.cpp:12-19 | Stable, DC gain A squared, Nyquist gain 1. |
| `Filters.HighShelfFilter` | MyMusic/MyMusic/ToneControl.cpp:20-27 | Stable, DC gain 1, Nyquist gain A squared. |
| `Filters.Deviation` | MyMusic/MyMusic/Equalizer.h:43-50 | On constant input the scaled constant is a fixed point of `process`, and deviations from it obey the homogeneous recurrence. |
| `Filters.ConstantInputBounded` | MyMusic/MyMusic/Equalizer.h:43-50 | A stable filter fed a constant stays for ever within the bound that its first deviations set. |
| `Filters.AnyHistoryConverges` | MyMusic/MyMusic/Equalizer.h:43-50 | From any history, a stable filter fed a constant converges to the constant scaled by its DC gain: for every bound there is a moment from which the deviations stay below it. |
| `Tones.ToneConverges` | MyMusic/MyMusic/Equalizer.h:43-50 | From any history, a stable filter fed a sampled sinusoid tends to an answer p x(n) + q x(n-1) of the same frequency: from some moment on the outputs differ from it by less than any bound. |
| `Tones.PowerOfTone` | MyMusic/MyMusic/Equalizer.h:43-50 | A tone keeps its amplitude, and such an answer has it times a gain that p, q and the frequency give. |
| `Tones.PeakingTone` | MyMusic/MyMusic/Equalizer.h:15-35 | At its own frequency a peaking filter multiplies a tone by g squared, neither more nor less; its poles have the bandwidth that alpha asks for. |
| `Tones.CentreConverges` | MyMusic/MyMusic/Equalizer.h:15-50 | So from any history the output for a tone of the band tends to the input times g squared: +12 dB raises it by 12 dB, -12 dB lowers it. |
| `Shelves.LowShelfTone` | MyMusic/MyMusic/ToneControl.cpp:12-19 | At its own frequency a low shelf has gain A, half of its gain in dB, and the slope that alpha asks for. |
| `Shelves.HighShelfTone` | MyMusic/MyMusic/ToneControl.cpp:20-27 | The same for a high shelf. |
| `Decay.DevVanishes` | MyMusic/MyMusic/Equalizer.h:43-50 | Inside the stability triangle every solution of the homogeneous recurrence tends to zero. |
| `Decay.TwoStepRate` | MyMusic/MyMusic/Equalizer.h:43-50 | Every two steps of the recurrence take at least a fixed part of a quadratic form of the deviations. |
| `Stereo.StreamingIsBatch` | MyMusic/MyMusic/Equalizer.cpp:21-45 | Processing two buffers in turn gives the samples and the filter states of processing their concatenation. |
| `Stereo.ChannelsAreSeparate` | MyMusic/MyMusic/Equalizer.cpp:25-44 | Each channel of the output is that channel of the input through its own filters. |
| `Stereo.ToSampleTruncates` | MyMusic/MyMusic/Equalizer.cpp:36-43 | Clamping and the cast leave samples alone, are monotone, and truncate toward zero. |
| `Stereo.FlatIsIdentity` | MyMusic/MyMusic/Equalizer.cpp:3-45 | Filters that are flat with equal histories return every buffer unchanged and stay so. |
| `Stereo.PeakingFlat` | MyMusic/MyMusic/Equalizer.h:15-35 | A peaking filter is flat if and only if its gain is 0 dB. |
| `Stereo.ShelvesFlat` | MyMusic/MyMusic/ToneControl.cpp:3-31 | Each shelf is flat if and only if its gain is 0 dB. |
| `Equalizer.Equalizer10Band.Process` | MyMusic/MyMusic/Equalizer.cpp:21-45 | The nested loops rewrite the buffer in place to the chain's output and leave the filters where the chain does; at 0 dB since construction the buffer is unchanged. |
| `Equalizer.Equalizer10Band.UpdateBand` | MyMusic/MyMusic/Equalizer.cpp:14-19 | Only the named band's coefficients change, on both channels, histories are kept, a bad index does nothing; the band is then stable, multiplies a tone of its frequency by the square of the gain, and leaves DC and Nyquist alone; 0 dB keeps a flat equalizer flat. |
| `Equalizer.Equalizer10Band.constructor` | MyMusic/MyMusic/Equalizer.cpp:3-12 | A new equalizer has all bands at 0 dB and has heard nothing. |
| `Equalizer.UpdatedFlat` | MyMusic/MyMusic/Equalizer.cpp:14-19 | A band set to 0 dB among flat ones, with equal histories, makes the whole chain flat. |
| `ToneControl.ToneControl.Process` | MyMusic/MyMusic/ToneControl.cpp:58-72 | As for the equalizer, with bass then treble on each channel. |
| `ToneControl.ToneControl.SetBass` | MyMusic/MyMusic/ToneControl.cpp:46-50 | Both bass filters get a stable shelf with gain A squared at DC, A at the bass frequency and 1 at Nyquist, and keep their histories; 0 dB keeps the control flat. |
| `ToneControl.ToneControl.SetTreble` | MyMusic/MyMusic/ToneControl.cpp:52-56 | Both treble filters get a stable shelf with gain 1 at DC, A at the treble frequency and A squared at Nyquist, and keep their histories; 0 dB keeps the control flat. |
| `ToneControl.ToneControl.constructor` | MyMusic/MyMusic/ToneControl.cpp:40-44 | A new tone control has both shelves at 0 dB and has heard nothing. |
| `Playlist.RunRefines` | Server/SessionServer/LogicSystem.cpp:610-642 | Over any collect and uncollect requests, whatever the database lets through, each playlist's rows stand for its sequence (append if absent, remove), with distinct positions in collection order. |
| `Playlist.CompactionRepresents` | Server/SessionServer/MysqlDao.cpp:655-707 | Every intermediate table of a compaction stands for the same sequence with distinct positions, and the complete one has positions 1 to n. |
| `Playlist.ReadsInOrder` | Server/SessionServer/MysqlDao.cpp:663-668 | A playlist read in position order is its sequence, and no other result is possible. |
| `Playlist.AddRepresents` | Server/SessionServer/MysqlDao.cpp:382-454 | Inserting at the greatest position plus one appends the song; a song already there changes nothing. |
| `Playlist.RemoveRepresents` | Server/SessionServer/MysqlDao.cpp:553-585 | Deleting a row removes the song and keeps the rest in order. |
| `Playlist.AddedAt` | Server/SessionServer/MysqlDao.cpp:382-454 | A new row has the position asked for, or one more than the greatest of its playlist; all other rows stay, and a song already there keeps its position. |
| `Playlist.PlaylistSongs.CreatePlaylistSong` | Server/SessionServer/MysqlDao.cpp:382-454 | The table after the statements, for an explicit position or the end, or unchanged. |
| `Playlist.PlaylistSongs.UpdatePositions` | Server/SessionServer/MysqlDao.cpp:655-707 | The loop renumbers in the order of the query result, or rolls back to the table before: exactly if the commit or an UPDATE that is issued fails. |
| `Playlist.PlaylistSongs.RemoveSong` | Server/SessionServer/MysqlManager.cpp:67-87 | Removal with compaction: the sequence loses the song whether or not the compaction succeeds, a successful one leaves 1 to n, and other playlists keep their rows. |
| `ConnectionPool.Conservation` | Server/StatusServer/RedisManager.h:56-137 | Until stop, for every interleaving of borrowers with the check thread: no context is in two places, and idle + lent + failed is the number made at construction, up to the half of a paired update that is still to come. |
| `ConnectionPool.CheckEnds` | Server/StatusServer/RedisManager.h:93-137 | However borrowers interleave, the sweep and the reconnect loop end within a bound known when the check starts. |
| `ConnectionPool.CheckAlone` | Server/StatusServer/RedisManager.h:93-137 | The transitions of a check that nobody interrupts do to the pool exactly what `CheckThread` does, within the bound of `CheckEnds`. |
| `ConnectionPool.FirstInFirstOut` | Server/StatusServer/RedisManager.h:67-91 | For every interleaving, connections are taken in the order in which they came into the queue. |
| `ConnectionPool.RedisConPool.CheckThread` | Server/StatusServer/RedisManager.h:93-137 | Run alone, the check keeps exactly the connections that answer, in order, and replaces or still counts each of the others. |
| `ConnectionPool.RedisConPool.GetConNonBlock` | Server/StatusServer/RedisManager.h:67-75 | Takes the front of the queue unless it is empty or the pool has stopped. |
| `ServerSentEvents.AIChatClient.ParseSSE` | MyMusic/MyMusic/AIChatClient.cpp:324-341 | One call returns the complete non-empty events of the buffer with the new text, line ends normalised, and keeps the rest. |
| `ServerSentEvents.ChunkingDoesNotMatter` | MyMusic/MyMusic/AIChatClient.cpp:324-341 | A text is read alike under every chunking, events and buffer, if and only if it has no CR CR LF. |
| `ServerSentEvents.AnyChunking` | MyMusic/MyMusic/AIChatClient.cpp:324-341 | Without CR CR LF, the events of all calls are those of the whole text, and so is the buffer. |
| `ServerSentEvents.SplitAppend` | MyMusic/MyMusic/AIChatClient.cpp:330-338 | Splitting a text in two parts gives the events and the rest of the whole. |
| `ServerSentEvents.EventsArrive` | MyMusic/MyMusic/AIChatClient.cpp:324-341 | Round trip: whatever events a server sends, with line ends of one character or two, and however the text is cut, all calls together return exactly these events and keep what follows them. |
| `UrlCodec.RoundTrip` | Server/GateServer/HttpConnection.cpp:106-140 | `UrlDecode` undoes `UrlEncode` (section 2.1 of RFC 3986) for every byte string. |
| `UrlCodec.UrlEncode` | Server/GateServer/HttpConnection.cpp:106-123 | The loop computes the encoding. |
| `UrlCodec.UrlDecode` | Server/GateServer/HttpConnection.cpp:125-140 | The loop computes the decoding, or stops where an assertion fails. |
| `UrlCodec.HexRoundTrip` | Server/GateServer/HttpConnection.cpp:91-104 | `FromHex` undoes `ToHex` on both halves of every byte. |
| `UrlCodec.PercentDecodes` | Server/GateServer/HttpConnection.cpp:96-140 | A percent sign with two hexadecimal digits, each in either case, decodes to the byte they write. |
| `UrlCodec.EncodedByte` | Server/GateServer/HttpConnection.cpp:91-123 | Letters, digits and - _ . ~ stand for themselves, a space becomes a plus sign, and every other byte a percent sign with two upper-case digits. |
| `UrlCodec.DecodesIff` | Server/GateServer/HttpConnection.cpp:125-140 | The assertions of the decoder hold if and only if every percent sign has two letters or digits behind it. |
| `UrlCodec.HttpConnection.PreParseGetParam` | Server/GateServer/HttpConnection.cpp:142-176 | The path before the question mark, and the parameters of the query after it, part by part. |
| `UrlCodec.QueryRoundTrip` | Server/GateServer/HttpConnection.cpp:142-176 | Parsing recovers every list of key/value pairs written with the encoder, whatever parts without = stand between them, on top of any parameters already there. |
| `UrlCodec.CollectedLast` | Server/GateServer/HttpConnection.cpp:161-174 | Of several pairs with one key, the last one's value counts. |
| `UrlCodec.TargetRoundTrip` | Server/GateServer/HttpConnection.cpp:142-154 | A path and an encoded query are taken apart again. |

## Left out

- JSON and SQL text, gRPC and hiredis transport: messages are records, tables are maps, Redis is a map; `BytesSentAreBytesStored` takes the reading of JSON as a parameter.
- The interleaved handlers of the login protocol are transitions of a state machine and not imperative code; `SessionRegistry` has `LoginHandler`, `DealExceptionSession` and `On_Timer` as methods that run without interruption.
- The message queue between `PustMsg` and `Run`: one worker takes messages in order, so handlers are modelled as running one at a time.
- `HeartBeatHandler` beyond `CheckToken`: extending the expiry of a token changes no value.
- SessionRegistry.SessionServer.Login: what the two database reads before the critical section return is not modelled, only whether they succeed; nor is the login counter.
- SessionLogin.SingleSession: assumes that the kick RPC reaches the peer and that Redis commands of a login succeed, because the handler ignores both outcomes; and it does not count a session that is being erased.
- Equality of the login counter with the number of sessions: the timer overwrites it without the lock.
- That `utoken_` exists only while a session does: the session token is set after the lock is released.
- Spool.LogicSystem.UploadFileHandler: a write error that shows only when the file is closed, which the source does not look at, and exceptions of the path functions.
- The fields that an upload answer repeats from the request (`seq`, `name`, the two sizes): only its error code is modelled.
- UploadPipeline.BytesSentAreBytesStored: files of 2 GiB and more, whose announced size is wrong.
- The client's `last` and `last_seq` fields: the server ignores them.
- Pairing of song metadata with uploads: one record is shared by all users.
- SendQueue.SendOrder: bodies above 32767 bytes, whose length a `short` cannot hold, are excluded.
- Filters and everything above them: float rounding; the model is over the reals.
- Playlist.RunRefines: a rollback that itself fails, and positions beyond 32 bits.
- ConnectionPool.Conservation: stopping, and connections that fail before the pool is complete; the other pools, whose counts are not kept.
- ServerSentEvents.AnyChunking: chunks cut inside a multi-byte character; `fromUtf8` is not part of this model.
- UrlCodec.UrlDecode: builds without assertions, where malformed input is undefined behaviour.
- JSON handling after the event splitter, `GetChatServer`'s choice of a server, widgets, playback, mail, logging and configuration: nothing hard to state.

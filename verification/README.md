# A model of the uProtocol client over Zenoh

The client sends uProtocol messages over Zenoh. This project models its five working parts and proves what they
promise together:

- **the wire header** (`Wire`, `Attributes`, `MessageBuilder`, `MessageParser`, `Codec`): tag-length-value records
  written in place into a buffer sized by a first pass, and read back by a cursor loop;
- **the transport object** (`Transport`, `TransportInvariants`, `TransportRuns`, `TransportHistory`, `UTransport`,
  `RequestLedger`): the listener registry, the publisher cache and the table of pending queries. The class
  `UTransport.ZenohUTransport` updates its fields as the C++ object does; each method equals a function of module
  `Transport`, about which the invariants and the theorems over whole lives are proved;
- **messages that arrive** (`Headers`, `RpcClient`, `EndToEnd`, `RemoteCalls`): when a message is heard, in terms of its
  bytes; the calling side of an RPC; and the composed theorems, from sender to receiver and from the request a client
  issues to the payload in its future;
- **the session manager** (`Session`, `SessionCalls`, `SessionManager`): the double-checked reference count as a machine
  whose steps are single reads, writes and lock operations of any number of threads; the same methods run by one caller;
  and the proof that without one race every interleaving amounts to whole calls, one after the other;
- **the two caches that threads share** (`Singleton`, `PublisherCache`): the one client behind a weak pointer, and
  publishers declared under a lock;
- **clients and the session they share** (`Clients`, `ClientLives`, `SharedSession`): constructions and destructions one
  after the other, and then the threads of `Singleton` with every step that their constructors and destructors take
  inside the session manager.

`Witnesses` and `ClientWitnesses` (with `ClientSteps`) hold concrete runs for the failures listed below, and for calls
that succeed.

Run `dafny verify dfyconfig.toml` to check everything.

## Conventions

- What Zenoh decides is an argument: whether a declaration, put, reply or open succeeds, which handle it gives out, in
  which order it delivers, and which bytes happen to follow a header in the receiver's memory (`beyond`). Zenoh's
  side, its entities and what it delivered, is a `World`.
- `size_t` is 8 bytes and little-endian; enumerations and `int32_t` take 4 bytes, in two's complement. The codes of
  message types and serialization hints come from up-cpp, which is not part of this model: they are distinct constants.
- A UUID is its 16 serialized bytes, and the pending-query table is keyed by them (its text form is invertible). A URI
  carries its text, the hash of that text and whether its resource is an RPC method. That a key is not used for both
  kinds of URI is a hypothesis (`SameKind`); `TransportRuns.KeysDecideKind` derives it from hashes that do not collide
  across kinds.
- `Addressable(a)` says that the header is smaller than 2^64 bytes. `Parseable` says that a received header is one on
  which the parser's behaviour is defined.

## What the code does that its documentation does not say

Each of these is kept as written, with the exact condition proved and an input at which it shows.

- The ttl that a receiver sees is the first word of the id (`Codec.TtlSurvives`, `Codec.TtlLost`).
- Room is reserved for a sink but never filled. A header with a sink parses exactly when the sink's text length is a
  multiple of 9; otherwise a publish that reports success runs no listener, and a reply gives the caller no payload
  (`Codec.HeaderContents`, `EndToEnd.PublishReachesEveryListener`, `EndToEnd.ResponseReachesCaller`; at an input,
  `Witnesses.PublishReachesNobody`).
- The session manager can be left with a positive count and no open session, although every caller terminates only what
  it initialized. The step that decides is the read-back of zero in `term` while another thread has already chosen the
  increment without the lock: a step leads to such a state, without a further race, exactly when it is that step
  (`Session.BrokenExactlyByRace`; reached in `Session.RaceIsReachable`, where the thread that holds the one reference
  reads a closed session).
- Two threads that publish under one key can both declare a publisher (`PublisherCache.OnePublisherPerKey`,
  `PublisherCache.StaleIsReachable`). `anew` selects a corrected variant that looks the key up again under the lock, for
  which this is excluded (`PublisherCache.FreshLookupAgrees`).
- `unregisterListener` reports success for a listener that is not registered, exactly when a registration for its key
  ever succeeded (`TransportRuns.UnregisterStatus`, `Witnesses.StrangerIsUnregistered`); the header promises a failure.
- The transport's constructor overwrites every failure with success, and both destructors call `term` whatever their
  `init` returned. Clients that share a session keep their references exactly as long as every client is destroyed while
  it owes two or no other owes any (`Clients.ExactWhileFair`, `Clients.HalfFailedClientTakesReferences`). `instance`
  drops a client that failed after it has released the construction lock, so its destructor can close the session of the
  client another thread was given meanwhile, or make that client's constructor throw between its two `getSession` calls
  (`SharedSession.ExactUntilTheft`, `SharedSession.FailedClientSteals`, `ClientWitnesses.TheftIsReachable`,
  `ClientWitnesses.ThrowIsReachable`).
- Even where every session opens and nothing is stolen, `instance` can return a client whose session is closed: a
  destructor's last `term` can race with the next constructor's first `init`, because the construction lock does not
  cover destructors. Until the first theft or race a returned client is served
  (`SharedSession.HealthyUntilDisturbed`, `SharedSession.ReturnedClientIsServed`, `ClientWitnesses.RaceIsReachable`).
- With a subscriber and a queryable under one key, `unregisterListener` erases past the end of a vector, exactly for the
  listeners that stand behind the subscribers (`TransportRuns.ErasesPastTheEnd`, `Witnesses.MixedKindsErasePastTheEnd`).
- A call reaches every queryable of its key, and each answer replaces the one before in the caller's future: it holds the
  payload of the last reply before the first unreadable one (`RemoteCalls.FutureOf`, `Witnesses.LaterAnswerIsReturned`).
- The transport's destructor does not undeclare queryables (`TransportRuns.DestructorLeavesQueryables`,
  `Witnesses.QueryableSurvives`).
- A query that arrives under an id already pending makes the earlier one unanswerable, and a clone whose header cannot
  be read is never released (`TransportRuns.AnsweredAtMostOnce`, `Witnesses.FirstQueryIsLost`).

## Model

| member | source | states |
|---|---|---|
| Wire.LengthRoundTrip | lib/src/messageParser.cpp:68-70 | every length below 2^64 is read back from the eight bytes written for it |
| Wire.EncodeDecodeWord | lib/src/messageParser.cpp:68-70 | conversely every byte string is the image of exactly the number read from it, which fits its width |
| Wire.LittleEndianDigits | lib/src/messageBuilder.cpp:88-88 | byte i of a length is its i-th digit to the base of 256, the least significant first |
| Wire.Int32Digits | lib/src/messageBuilder.cpp:111-112 | byte i of a signed word is the i-th such digit of its residue modulo 2^32 |
| Wire.Int32RoundTrip | lib/src/messageParser.cpp:110-129 | 32-bit words of either sign are read back unchanged, and every four bytes are the image of the word they read as |
| Wire.RecordLayout | lib/src/messageBuilder.cpp:86-92 | tag, length and value of a record lie where the parser looks for them, whatever follows |
| Wire.PaddedEncodingInjective | lib/src/messageBuilder.cpp:78-93 | the bytes of a header determine its records and the amount of zero padding behind them |
| MessageBuilder.UpdateSize | lib/src/messageBuilder.cpp:134-141 | the size grows by head and value, modulo 2^64 |
| MessageBuilder.UpdateSizeOf | lib/src/messageBuilder.cpp:118-132 | the size stays congruent to the exact sum for strings, byte vectors and plain values |
| MessageBuilder.CalculateSize | lib/src/messageBuilder.cpp:143-180 | the first pass computes the length of what the second pass writes plus the room for a sink, modulo 2^64 |
| MessageBuilder.HeaderLength | lib/src/messageBuilder.cpp:143-180 | the length of the header specification, field by field; at least 51 bytes |
| MessageBuilder.AddTag | lib/src/messageBuilder.cpp:78-93 | one record is written at the cursor, inside the buffer; every other byte is unchanged; the cursor moves past it |
| MessageBuilder.AddValue | lib/src/messageBuilder.cpp:95-116 | the records so far are extended by exactly one, adjacent to the last, with zeros behind |
| MessageBuilder.BuildHeader | lib/src/messageBuilder.cpp:35-76 | the buffer is the records of the present fields followed by 9+L zeros for a sink of L bytes; the cursor ends where these begin |
| MessageParser.GetAllTlv | lib/src/messageParser.cpp:39-84 | the cursor loop equals the recursive decoder, reads values only in bounds, and bytes past the end never influence its result |
| MessageParser.GetAttributes | lib/src/messageParser.cpp:86-134 | nothing unless ID, TYPE and PRIORITY are there; otherwise the attributes of the records, the ttl taken from the ID record |
| Codec.DecodeConcatenation | lib/src/messageParser.cpp:52-81 | parsing a concatenation is parsing the second part with the records of the first underneath |
| Codec.ParseConcatenation | lib/src/messageParser.cpp:39-84 | two strings that are accepted make one that is accepted, with the records of the second on top; an unacceptable second part makes the whole unacceptable |
| Codec.ParseEncodeAll | lib/src/messageParser.cpp:39-84 | every non-empty sequence of sendable records is accepted, to the last record of each tag; for the empty one the parser returns nothing |
| Codec.Split | lib/src/messageParser.cpp:52-81 | a string that parses is the encoding of a sequence of sendable records |
| Codec.AcceptedExactly | lib/src/messageParser.cpp:39-84 | where its behaviour is defined, the parser accepts exactly the encodings of at least one sendable record, and returns the latest of each tag |
| Codec.LastDuplicateWins | lib/src/messageParser.cpp:80 | the record kept for a tag is the one no record of the same tag follows |
| Codec.TagsAccepted | lib/src/messageParser.cpp:148-150 | a single record is accepted iff its tag byte is at most 11 |
| Codec.AttributesExactly | lib/src/messageParser.cpp:86-104 | the two parser calls yield attributes iff the bytes are records among which are tags 1, 2 and 3 |
| Codec.OrderIrrelevant | lib/src/messageParser.cpp:80 | where tags do not repeat, the order of records does not matter |
| Codec.DecodeZeros | lib/src/messageParser.cpp:52-81 | n zero bytes parse exactly when 9 divides n, to one empty UURI record if there are any |
| Codec.HeaderContents | lib/src/messageBuilder.cpp:35-76 | a header parses iff there is no sink or 9 divides its text length, and then yields exactly the present fields with their bytes, plus an empty UURI if there is a sink |
| Codec.FieldsByNumber | lib/include/up-client-zenoh-cpp/message/messageCommon.h:28-44 | which attribute a header carries under which tag number |
| Codec.RecordsAscend | lib/src/messageBuilder.cpp:45-73 | the records of a header come in the order of their tags, each once |
| Codec.SinkRoom | lib/src/messageBuilder.cpp:163-165 | a sink of L bytes appends exactly 9+L zero bytes to the header without it |
| Codec.HeaderRoundTrip | lib/src/messageParser.cpp:86-134 | id, type, priority, permission level and comm status arrive unchanged; ttl only in whether it is there; token, hint, sink and request id do not arrive |
| Codec.TtlSurvives | lib/src/messageParser.cpp:116-119 | the ttl arrives as sent iff there is none or its bytes are the first four of the id |
| Codec.TtlLost | lib/src/messageParser.cpp:116-119 | a message for which it does not |
| Codec.HeaderDetermines | lib/src/messageBuilder.cpp:35-76 | two headers are equal iff all fields are, presence included, up to the text of sinks of equal length |
| RequestLedger.FileKeeps | lib/src/zenohUTransport.cpp:471-491 | filing a clone keeps: every clone is exactly one of pending, answered, lost; the numbers add up; lost are exactly the unread and the overtaken |
| RequestLedger.UnreadKeeps | lib/src/zenohUTransport.cpp:471-485 | the same for a clone whose header cannot be read |
| RequestLedger.AnswerKeeps | lib/src/zenohUTransport.cpp:252-252 | the same for an answer |
| TransportInvariants.RegisterKeepsRegistry | lib/src/zenohUTransport.cpp:260-361 | registering keeps: listeners duplicate-free, one handle vector in use and as long as the listeners, handle i declared with listener i as argument, nothing declared that is not kept |
| TransportInvariants.UnregisterKeepsRegistry | lib/src/zenohUTransport.cpp:363-403 | so does unregistering, and it never erases past the end of a vector |
| TransportInvariants.EraseAligned | lib/src/zenohUTransport.cpp:386-394 | erasing one index from listeners and handles keeps the rest aligned |
| TransportInvariants.LockstepNeedsOneKind | lib/src/zenohUTransport.cpp:314-341 | a successful registration keeps the vectors in lockstep iff the key is not in use for the other kind of URI |
| TransportInvariants.RegisterAddsOnePair | lib/src/zenohUTransport.cpp:260-361 | success adds exactly the pair (key, listener); INVALID_ARGUMENT iff it was there, INTERNAL iff it was not and Zenoh refuses, and then nothing changes |
| TransportInvariants.UnregisterRemovesOnePair | lib/src/zenohUTransport.cpp:363-403 | exactly the named pair is removed; success iff the registry has a container for the key, INVALID_ARGUMENT otherwise |
| TransportInvariants.RegisterThenUnregister | lib/src/zenohUTransport.cpp:260-403 | unregistering undoes a registration, vectors and Zenoh's entities included |
| TransportInvariants.EntitiesArePairs | lib/include/up-client-zenoh-cpp/transport/zenohUTransport.h:38-43 | declared subscribers and queryables are in bijection with the registered pairs |
| TransportInvariants.SendKeepsPublishers | lib/src/zenohUTransport.cpp:124-192 | cache and declared publishers stay the same relation, every put used the cached publisher, and cached publishers are not replaced |
| TransportInvariants.QueryIsLedgerStep | lib/src/zenohUTransport.cpp:449-503 | an incoming query is one step of the request ledger, which one depending on its header |
| TransportInvariants.SendIsLedgerStep | lib/src/zenohUTransport.cpp:193-258 | a send answers in the ledger iff it is a response that was accepted, and leaves it alone otherwise |
| TransportInvariants.QueryKeepsQueries | lib/src/zenohUTransport.cpp:449-503 | queries keep the ledger's invariants and the answers given |
| TransportInvariants.SendKeepsQueries | lib/src/zenohUTransport.cpp:193-258 | so do sends, and a reply carries the id its query was filed under |
| TransportRuns.StepKeepsGood | lib/src/zenohUTransport.cpp:89-503 | every call and every incoming query keeps the invariants of registry, cache and pending queries |
| TransportRuns.RunKeepsGood | lib/src/zenohUTransport.cpp:89-503 | they hold over every life of a transport |
| TransportRuns.KeysDecideKind | lib/src/zenohUTransport.cpp:276-315 | if whether a URI is an RPC method can be told from its hash, no key is ever used for both kinds |
| TransportRuns.ErasesPastTheEnd | lib/src/zenohUTransport.cpp:384-394 | over every life, whatever shares a key: an unregistration erases past the end of a vector iff the listener's index is beyond the subscribers and there are some; such a listener exists iff both kinds are registered under the key |
| TransportRuns.RunKeepsQueries | lib/src/zenohUTransport.cpp:89-503 | the invariants of the pending queries hold over every life, whatever the callers register |
| TransportRuns.RunKeepsFiled | lib/src/zenohUTransport.cpp:489-491 | the id a query was filed under never changes |
| TransportRuns.AnsweredAtMostOnce | lib/src/zenohUTransport.cpp:193-258 | over every life: at most one reply per cloned query, under its id; clones = replies + pending + lost; lost are exactly those without reply that were unread or overtaken |
| TransportRuns.PendingAwaits | lib/src/zenohUTransport.cpp:205-210 | a query is pending under an id iff it was filed under it, no later one was, and it has no reply |
| TransportRuns.HintsExactly | lib/src/zenohUTransport.cpp:505-532 | which hints have an encoding, and which encoding each has |
| TransportRuns.ResponseAccepted | lib/src/zenohUTransport.cpp:193-258 | over every life, the status of a response in each case; it is accepted iff it is well formed, Zenoh takes it and some query with its id awaits a reply, and then there is one reply more, to this query, with its payload, header and encoding; otherwise nothing changes |
| TransportRuns.KnownKeys | lib/src/zenohUTransport.cpp:343-343 | the registry has a container for a key iff a registration for it ever succeeded |
| TransportRuns.UnregisterStatus | lib/src/zenohUTransport.cpp:363-403 | over every life unregistering reports success iff a registration for the key ever succeeded, and removes exactly the named pair |
| TransportRuns.DestructorLeavesQueryables | lib/src/zenohUTransport.cpp:57-87 | after every life and the destructor no publisher and no subscriber is declared; what remains is exactly the queryables in the registry; cache and registry are empty and all else is as it was |
| TransportHistory.CachedKeys | lib/src/zenohUTransport.cpp:124-147 | a publisher is cached for exactly the keys for which a well-formed publish was ever sent that Zenoh would declare for |
| TransportHistory.PublishAccepted | lib/src/zenohUTransport.cpp:109-192 | over every life, the status of a message to a URI that is no RPC method in each case; OK iff it has a payload, the type PUBLISH, a hint with an encoding or none, a publisher declared before or now, and Zenoh takes it; then there is one put more, through the cached publisher, with its payload, header and encoding; otherwise nothing is put or delivered and at most the cache changes |
| TransportHistory.CallbackUri | lib/src/zenohUTransport.cpp:305-307 | in every life the URI of every callback is that of the latest successful registration of its key and listener |
| Headers.HandledExactly | lib/src/zenohUTransport.cpp:404-447 | a sample runs the listener iff it has an attachment with a header of records including id, type and priority, and then with its payload and attributes |
| Headers.QueryRuns | lib/src/zenohUTransport.cpp:449-503 | a query without a header does nothing; any other is cloned; it runs the listener iff its header is complete and its type is REQUEST |
| UTransport.ListenerContainer.PushBack | lib/src/zenohUTransport.cpp:314-341 | listener and handle are appended, the handle to the vector of its kind |
| UTransport.ListenerContainer.EraseAt | lib/src/zenohUTransport.cpp:386-394 | listener and handle at the index are erased, the handle from the vector in use |
| UTransport.ZenohUTransport.RegisterListener | lib/src/zenohUTransport.cpp:260-361 | new state and status are those of the specification; no two keys share a container |
| UTransport.ZenohUTransport.Contains | lib/src/zenohUTransport.cpp:283-289 | the scan finds a listener iff it is registered |
| UTransport.ZenohUTransport.UnregisterListener | lib/src/zenohUTransport.cpp:363-403 | new state and status are those of the specification |
| UTransport.ZenohUTransport.Send | lib/src/zenohUTransport.cpp:89-107 | new state and status are those of the specification |
| UTransport.ZenohUTransport.SendPublish | lib/src/zenohUTransport.cpp:109-192 | the header built in place is the one put, through the cached or newly cached publisher, and the one every subscriber's handler is called with |
| UTransport.ZenohUTransport.Deliver | lib/src/zenohUTransport.cpp:315-319 | calling the handler of each subscriber in turn runs exactly the listeners the specification says, in order |
| UTransport.ZenohUTransport.SendQueryable | lib/src/zenohUTransport.cpp:193-258 | the pending query of the id is answered and forgotten, or nothing changes |
| UTransport.ZenohUTransport.SubHandler | lib/src/zenohUTransport.cpp:404-447 | the listener is run at most once, with its own URI, the payload and the parsed attributes |
| UTransport.ZenohUTransport.QueryHandler | lib/src/zenohUTransport.cpp:449-503 | clone, filing and run of the listener are those of the specification |
| UTransport.ZenohUTransport.Destroy | lib/src/zenohUTransport.cpp:57-87 | publishers and subscribers are undeclared; every container keeps its queryables and nothing else |
| UTransport.ReadHeader | lib/src/zenohUTransport.cpp:426-437 | the two parser calls yield the attributes of the decoded header |
| RpcClient.HandleReply | lib/src/zenohRpcClient.cpp:138-190 | the payload of the last reply up to which all are OK replies with a non-empty payload, an attachment, a header pointer, and header bytes that are records including id, type and priority; never an empty payload; none iff there is no reply or the first is no such one |
| RpcClient.ResultExactly | lib/src/zenohRpcClient.cpp:142-184 | the result of the loop is exactly that |
| RpcClient.ResultIsUnique | lib/src/zenohRpcClient.cpp:138-190 | that description admits at most one payload |
| RpcClient.SomeStop | lib/src/zenohRpcClient.cpp:142-184 | and at least one |
| RpcClient.ResultIsFold | lib/src/zenohRpcClient.cpp:142-184 | it is the fold in which each acceptable reply replaces the payload and the first other one ends |
| RpcClient.InvokeMethod | lib/src/zenohRpcClient.cpp:78-136 | a future exists iff the URI is an RPC method, the message a request and the query was issued, with the built header; it holds the result of the replies |
| EndToEnd.HeaderArrives | lib/src/zenohUTransport.cpp:411-437 | a built header is readable where it arrives iff its sink allows, and gives the attributes it was built from |
| EndToEnd.RunsOfHeader | lib/src/zenohUTransport.cpp:404-447 | each callback a sample reaches runs its listener once, in order, or none does |
| EndToEnd.PublishReachesEveryListener | lib/src/zenohUTransport.cpp:109-192 | after a successful publish every listener of the key has run exactly once with the payload and the received attributes, and no other has; none has if a sink made the header unreadable |
| EndToEnd.PublishInEveryLife | lib/src/zenohUTransport.cpp:109-192 | the same, both for readable and unreadable headers, in every life of a transport, if hashes do not collide across the two kinds of URI; each listener is called with the URI of its latest successful registration |
| EndToEnd.QueryInEveryLife | lib/src/zenohUTransport.cpp:449-503 | in every life a query runs its queryable's listener iff its header is complete and its type is REQUEST, with the URI of the latest successful registration |
| EndToEnd.RequestIsFiled | lib/src/zenohUTransport.cpp:449-503 | a readable request is filed under its id and handed to the queryable's listener once |
| EndToEnd.ResponseReachesCaller | lib/src/zenohRpcClient.cpp:138-190 | an accepted response is a reply to the query pending under its id, and as the only reply gives the caller exactly its payload, or none if a sink made it unreadable |
| EndToEnd.CallIsAnswered | lib/src/zenohUTransport.cpp:193-258 | whatever happens between, an accepted response answers the query of a request with its id iff no later query took the id and the query has no reply yet |
| RemoteCalls.ClonesAreFiled | lib/src/zenohUTransport.cpp:471-491 | every clone a call makes, at any queryable of its key, is filed under the id of its request |
| RemoteCalls.RequestRunsListener | lib/src/zenohRpcClient.cpp:115-125 | in every life the listener of a queryable that an issued request reaches runs with exactly the payload the caller passed |
| RemoteCalls.FutureOf | lib/src/zenohRpcClient.cpp:138-190 | the caller's future, exactly: over all replies to all clones of the call, the payload of the one that decides (readable as are all before it, with none or an unreadable one next), and none if no reply does |
| RemoteCalls.SomeReplyDecides | lib/src/zenohRpcClient.cpp:142-184 | either exactly one reply decides or none of the call's can be read before an unreadable one |
| RemoteCalls.OneCloneDecides | lib/src/zenohRpcClient.cpp:138-190 | where the call was cloned once its one reply decides iff it is readable |
| RemoteCalls.CallReturns | lib/src/zenohRpcClient.cpp:78-190 | from the request `invokeMethod` issues to the caller's future, in any life with any number of queryables: an accepted response is a reply to the call iff a clone of it awaits one under its id; it then has the request's id; and where it decides the future holds its payload |
| Session.StepKeepsSafe | lib/src/zenohSessionManager.cpp:35-106 | every step of every thread keeps mutual exclusion, the count of credits, and that sessions are opened only while none is |
| Session.Unconditional | lib/src/zenohSessionManager.cpp:35-106 | over every run: the count never underflows and is increments minus decrements; `z_open` only while closed; lock free and count zero means closed |
| Session.StepKeepsUsable | lib/src/zenohSessionManager.cpp:35-106 | a step that is not the race keeps: a positive count means open |
| Session.CountMeansOpen | lib/src/zenohSessionManager.cpp:97-106 | over every run without the race: with the lock free, count positive iff open; `getSession` reads and `term` closes an open session |
| Session.RaceBreaks | lib/src/zenohSessionManager.cpp:88-90 | wherever the race is possible, three steps after it the count is positive, the lock free and no session open |
| Session.OnlyRacesBreak | lib/src/zenohSessionManager.cpp:37-90 | from a usable state, a step leads to a broken one without a further race iff it is the race |
| Session.BrokenExactlyByRace | lib/src/zenohSessionManager.cpp:37-90 | the same after every run without the race: no state so far is broken, and the next step makes one reachable iff it is the race |
| Session.RaceIsReachable | lib/src/zenohSessionManager.cpp:37-90 | the race happens with two threads and disciplined callers, and the holder of the one reference then reads a closed session |
| Session.HoldersAreCounted | lib/src/zenohSessionManager.cpp:70-88 | the count is at least the number of holders and at least each one's references |
| Session.HoldersGetASession | lib/src/zenohSessionManager.cpp:97-106 | with disciplined callers a holder's `getSession` always returns a value, in any run |
| Session.CountedSessionStays | lib/src/zenohSessionManager.cpp:84-92 | while the count is positive, no step but the race changes the open session |
| Session.HeldSessionStays | lib/src/zenohSessionManager.cpp:80-95 | while a thread holds a reference, no step races and none changes the open session |
| Session.OneSessionPerHolding | lib/src/zenohUTransport.cpp:48-49 | two `getSession` calls of a holder, with anything in between, see the same open session |
| SessionCalls.InitAlone | lib/src/zenohSessionManager.cpp:35-78 | an uninterrupted `init` completes, and every completion of it ends in exactly the state the method specifies |
| SessionCalls.TermAlone | lib/src/zenohSessionManager.cpp:80-95 | an uninterrupted `term` completes, and every completion of it ends in exactly the state the method specifies |
| SessionCalls.StepIsCall | lib/src/zenohSessionManager.cpp:35-106 | under any interleaving every step but the race is nothing or one whole `init` or `term` on the shared state, and calls return what they return there |
| SessionCalls.RaceFreeRunsAreCalls | lib/src/zenohSessionManager.cpp:35-106 | every run without the race does to the shared state what its calls do one after the other |
| SessionManager.ZenohSessionManager.Init | lib/src/zenohSessionManager.cpp:35-78 | keeps that count and open session go together; opens only at zero; counts only on success |
| SessionManager.ZenohSessionManager.Term | lib/src/zenohSessionManager.cpp:80-95 | keeps it too; closes exactly at the last reference; does nothing at zero |
| SessionManager.ZenohSessionManager.GetSession | lib/src/zenohSessionManager.cpp:97-106 | a value iff the count is positive, and then an open session |
| Clients.ConstructTransport | lib/src/zenohUTransport.cpp:39-55 | reports success whatever became of the session |
| Clients.ConstructRpcClient | lib/src/zenohRpcClient.cpp:44-69 | reports success iff its `init` succeeded, and then has the open session |
| Clients.DestroyTakesOwnReferences | lib/src/zenohRpcClient.cpp:71-76 | whoever else holds references, a destroyed client takes exactly those it owes iff it owes two or the count is what it owes |
| Clients.StepKeepsExact | lib/src/zenohUTransport.cpp:57-87 | a construction or destruction keeps the count what the live clients owe iff it destroys no client that owes less than two while others owe some |
| Clients.ExactWhileFair | lib/src/zenohUTransport.cpp:39-87 | the same for every point of every sequence of constructions and destructions |
| Clients.FailedOwesNothing | lib/src/zenohRpcClient.cpp:48-52 | a client owes two references iff its transport's `init` succeeded, and none if its RPC client's failed |
| Clients.HalfFailedClientTakesReferences | lib/src/zenohUTransport.cpp:82-84 | two clients, the first failed: destroying it closes the session of the second |
| Clients.BuildThenTear | lib/src/zenohUTransport.cpp:82-84 | constructing and destroying a client restores count and session |
| Singleton.StepKeepsInv | lib/src/upZenohClient.cpp:30-51 | every step of every thread keeps what each knows about the weak pointer and the owners |
| Singleton.OneClient | lib/src/upZenohClient.cpp:30-51 | over every run: every handle callers have is to the named client, which passed its check; at most one client that passed is alive |
| Singleton.EveryCallReturns | lib/src/upZenohClient.cpp:30-51 | over every run each step of a thread inside `instance` takes it further; where it comes out it drops its own failed client, or the callers have a new shared pointer to the named client, which passed; a client is made only while no named one is alive |
| Singleton.FoundIsReturned | lib/src/upZenohClient.cpp:33-41 | over every run a call that finds the named client alive, in the first test or under the lock, returns this client and makes none, whatever others do meanwhile |
| Singleton.StepLeaves | lib/src/upZenohClient.cpp:30-51 | no step of one thread moves another, changes a client's status or brings a client back to life |
| ClientLives.StepKeepsSound | lib/src/upZenohClient.cpp:30-51 | under every interleaving, thefts and races included: threads are inside the session manager only for the constructor or destructor they are in, and no client being destroyed has an owner |
| ClientLives.EndsExactly | lib/src/zenohRpcClient.cpp:44-69 | in any state: a constructor passes, fails or throws exactly where its last `getSession` finds a session, its RPC part's `init` fails or first `getSession` finds none, or a second `getSession` finds none |
| SharedSession.StepKeepsExact | lib/src/upZenohClient.cpp:30-51 | a micro-step keeps the count what the clients hold iff it is no `term` of a client with nothing left |
| SharedSession.ExactUntilTheft | lib/src/zenohRpcClient.cpp:71-76 | over every run, races or not: the count is at every point what the clients hold iff no such `term` occurs |
| SharedSession.HealthyUnlessDisturbed | lib/src/zenohSessionManager.cpp:35-106 | a step keeps count, session, constructors and clients in order iff it neither steals nor races |
| SharedSession.HealthyUntilDisturbed | lib/src/zenohSessionManager.cpp:35-106 | over every run they are in order at every point iff no step steals and none races |
| SharedSession.ReturnedClientIsServed | lib/src/upZenohClient.cpp:30-51 | until the first theft or race: no constructor has thrown; a returned client holds its references, the count covers them, and the sessions it was given are the open one |
| SharedSession.FailedClientSteals | lib/src/upZenohClient.cpp:43-49 | the `term` of a client that failed steals iff the count is positive, and always while the returned client is alive |
| SharedSession.OnlyRacesBreak | lib/src/zenohSessionManager.cpp:37-90 | with constructors and destructors as the callers, a step makes a positive count without an open session reachable, without a further race, iff it is the race |
| SharedSession.NoTheftWithoutFailure | lib/src/zenohUTransport.cpp:39-55 | where every session opens, races or not: no theft, no exception, every client passes and a living one holds two references |
| ClientWitnesses.RaceIsReachable | lib/src/upZenohClient.cpp:36-49 | two threads, every session opens, nobody steals: the returned client's session is closed |
| ClientWitnesses.TheftIsReachable | lib/src/upZenohClient.cpp:36-49 | two threads: one drops its failed client after the other was returned the next, which is left without a session |
| ClientWitnesses.ThrowIsReachable | lib/src/zenohUTransport.cpp:48-49 | two threads: the failed client is dropped between the other constructor's two `getSession` calls, and `value()` throws |
| PublisherCache.StepKeepsInv | lib/src/zenohUTransport.cpp:124-147 | every step keeps: every publisher in use was declared for its key, and every declared one is cached, superseded or about to be cached |
| PublisherCache.StepKeepsOnePerKey | lib/src/zenohUTransport.cpp:130-142 | a step keeps one publisher per key iff it does not declare for a key that is cached |
| PublisherCache.OnePublisherPerKey | lib/src/zenohUTransport.cpp:124-147 | after any run each key has at most one publisher iff no step of it declared for a cached key |
| PublisherCache.StaleMeansOvertaken | lib/src/zenohUTransport.cpp:130-135 | over every run a thread about to declare for a cached key looked the key up in vain before another thread inserted it |
| PublisherCache.OneThreadDeclaresOnce | lib/src/zenohUTransport.cpp:124-147 | a single thread never declares two publishers for one key |
| PublisherCache.CachedPublishPuts | lib/src/zenohUTransport.cpp:130-147 | over every run a publish that starts while its key is cached puts through the cached publisher and declares none, whatever others do meanwhile |
| PublisherCache.PublishEnds | lib/src/zenohUTransport.cpp:138-192 | a publish ends with a put unless Zenoh refuses the declaration |
| PublisherCache.StaleIsReachable | lib/src/zenohUTransport.cpp:133-135 | two threads reach a state with two publishers for one key |
| PublisherCache.FreshLookupAgrees | lib/src/zenohUTransport.cpp:130-142 | in the corrected variant they never do, and with the lock free the cache is exactly the declared publishers |
| Witnesses.PublishReachesNobody | lib/src/messageBuilder.cpp:163-165 | a listener is registered, a publish with a sink of four bytes reports success, and nobody receives it |
| Witnesses.OnePublish | lib/src/zenohUTransport.cpp:109-192 | with any sink of fewer than a hundred bytes, or none, the publish reports success and the listener runs once or not at all, as its length says |
| Witnesses.StrangerIsUnregistered | lib/src/zenohUTransport.cpp:379-402 | unregistering a listener that was never registered reports success and changes nothing |
| Witnesses.QueryableSurvives | lib/src/zenohUTransport.cpp:57-87 | a registered RPC listener's queryable is declared after the destructor |
| Witnesses.FirstQueryIsLost | lib/src/zenohUTransport.cpp:489-491 | of two queries with the same readable header the first is lost |
| Witnesses.MixedKindsErasePastTheEnd | lib/src/zenohUTransport.cpp:384-394 | a subscriber and a queryable under one key, and an unregistration that erases past the end |
| Witnesses.LaterAnswerIsReturned | lib/src/zenohRpcClient.cpp:142-184 | a call whose future holds the response's payload; and the same call answered by a second listener too, whose later payload it then holds |
| Witnesses.CallSucceeds | lib/src/zenohRpcClient.cpp:138-190 | a run that meets every hypothesis of the theorem on calls |

## Left out

- Delivery is part of the put: each subscriber's callback runs within it, once, and callbacks that call back into the transport while they run are not modelled.
- RemoteCalls.FutureOf: the replies are those of this transport's queryables, in the order sent, and all of them arrive; replies from other processes, the capacity of the reply channel and replies after the timeout are not modelled.
- Zenoh's internals: sessions, key expressions, transports between processes, timeouts and the closing of a reply channel.
- Ownership of callback arguments: whether a failed declaration drops its closure, and so whether the release at lib/src/zenohUTransport.cpp:355-357 is the second one, depends on Zenoh; the model has no memory to release.
- Whether undeclaring fails: an undeclared entity counts as gone, as the code ignores or only logs the result.
- MessageParser.GetAllTlv: values longer than the bytes left are excluded by the precondition, because the copy at lib/src/messageParser.cpp:76 then has no defined result; on a truncated head the loop reads up to eight bytes past the end, which must be readable.
- MessageParser.GetAttributes: records shorter than the words read from them are excluded, for the same reason; headers that were built never have them.
- MessageBuilder.BuildHeader: headers of 2^64 bytes or more are excluded; the size would wrap around and the writes run past the buffer.
- The branches for an empty header after `buildHeader`: a header has at least 51 bytes (`MessageBuilder.HeaderLength`), so they are dead.
- The sink beyond its encoded text, and the Base64 and URI serializers that produce it.
- Session.Unconditional: the counter is unbounded, while the code's wraps around after 2^32 references.
- UTransport.ZenohUTransport.UnregisterListener: the running index is unbounded, while the code's is 32 bits wide.
- UTransport.ZenohUTransport.SendPublish: one call at a time; interleaved calls are the subject of `PublisherCache`, which has the lookup, the lock and the cache and no messages.
- UTransport.ZenohUTransport.QueryHandler: one call at a time; unsynchronized access of several threads to the maps of the object is not modelled.
- Effects of the C++ memory model: every access to a shared variable in the three thread machines is one indivisible step.
- SessionManager.ZenohSessionManager.Init: the configuration is reduced to whether inserting it fails.
- Clients.ConstructRpcClient: the thread pool, its allocation failure and the scheduling of the reply loop.
- Singleton.OneClient: a client that failed its check may coexist with the live one for a moment, because the construction lock is released before the failed handle is dropped; it is never returned. `SharedSession` shows what it can do meanwhile.
- `getPayload`, `receive`, logging and the build files.

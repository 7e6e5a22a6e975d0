# Verified model of the TestCore bench server

TestCore is a single-process server that shares laboratory instruments between client sessions. This
project models four parts of it in Dafny 4.11 and proves what they promise:

* **The RESP2 wire layer.** `ServerParser` (incremental, slices and swaps its buffer), `ClientParser`
  (written independently, by offsets) and `Serializer`, on bytes, with `Text` for the `str`/`bytes`
  boundary and `Inline` for inline commands. `Agreement` proves the two parsers equal, `Chunking` says
  exactly which byte streams are read the same however they are split, `Client` follows a pipeline
  from the queue to its results.
* **The bench.** `Bench` is a step system: instruments, sessions, the one command in flight, guard
  tasks, health tasks, measurement entries, read-only keys, subscriptions and disconnect cleanups.
  `Apply` is one atomic piece of code between two suspension points, a run is any sequence of steps,
  and `At(run, i)` is its state after `i` steps. `BenchFrames` says which fields each step may change,
  `BenchInvariant` what every step keeps, `BenchEvents` everything a step can do to an instrument,
  `BenchCalls` which step starts a driver call or a guard, `BenchPhases` how commands and loops go on.
  `BenchSafety`, `BenchStuck`, `BenchGuards`, `BenchTrips`, `BenchMeasurements`, `BenchSessions` and
  `BenchPast` prove properties of all runs; `BenchWitnesses` and `GuardWitnesses` are concrete runs that show
  where a condition is needed and where the documentation promises more than the code keeps.
  `Registry`, `Watching` and `Handlers` are the same code as mutable objects with their loops, each
  method proved against the functions of `Bench`; IUNLOCK, IREAD, a turn of a guard and the cleanup
  loop, run without interruption, are shown to be among the interleavings.
* **The store.** `Store` is the key-value and measurement store as an object, `StoreHistory` and
  `StoreWrites` its properties over histories of operations, `Glob` the pattern matcher, what its
  patterns mean, and its fast path.
* **Events and journal.** `Events` is the event bus with SUBSCRIBE and UNSUBSCRIBE, `Journal` the
  ring buffer. `LineUtf8` is the line editor's UTF-8 codec on machine words.

Where the code and its documentation differ the model follows the code (README.md with a line number is
the repository's own):

* testcore/instruments.py:8 says every state but IDLE has an owner. `StuckIffStranded` says exactly
  when that fails: a release whose safe_state raised, or, while the instrument was IDLE, an init that
  completed, a command's call that timed out, or a health ping that timed out or was the third to fail
  in a row. `ReadyWithoutOwner` is a run with a READY instrument nobody owns and nobody can ever lock.
* README.md:716 says a guard runs as long as its instrument is READY. `GuardLivesIff` says exactly how
  long it runs: until its entry is ended (`EntryEndsIff`) or its loop is left by an exception. A session
  that owns nothing ends all guards of another session's READY instrument by IUNLOCK
  (`StrangerEndsGuard`); a read that raises anything but a DriverError leaves the entry listed without a
  task (`ReadEndsGuard`); so does a subscriber that comes or goes while the guard writes an event
  (`SubscriberEndsGuard`).
* README.md:716 says a reading outside the limits makes the instrument FAULT. `ViolationTripsIff` says
  exactly when the trip is still due; in `SubscriberEndsGuard` it never comes.
* README.md:581 says IRESET requires the owner. The code asks for none (testcore/commands.py:668-679):
  `ResetsIff` says when IRESET succeeds, `StrangerResets` is a run. IINIT and IALIGN ask for none either.
* The cleanup of a disconnected session ends early when another session removes an instrument under
  it (`CleanupIncomplete`, `RemovalStrandsInstrument`).
* Inline lines ending in LF alone are documented (testcore/protocol.py:102-121), but a CRLF further
  down the buffer wins, so such streams depend on how they are split (`ChunkingIndependentIffClean`,
  with an example in `CutChangesReading`).
* Entries of an instrument whose name is another's up to a colon go STALE with that other's
  (`InvalidateIsolatedIff`), and any session can write them (`ColonNameExposed`).
* `tail(0)` of the journal returns everything (`TailLength`); JOURNAL without arguments returns ten
  entries where README.md:437 says a hundred.

Integers are unbounded where Python's are; `LineUtf8` works on 32-bit and 8-bit words. `hide`
statements in proofs only keep definitions from the solver that the proof does not need.

## Results

The main theorems, by part. Everything else in the table below leads to one of them, ties object code
to the functions they speak of (all of `Registry` and `Watching`, most of `Handlers`), or is the
specification of one loop.

* Wire: `ParsersAgree`, `ChunkingIndependentIffClean`, `CleanStreamAnyChunking`, `FaultSticks`,
  `ArrayReadsBack`, `NestedReadsBack`, `WrittenLineReadsBack`, `BatchSurvivesAnyChunking`,
  `RepliesAligned`, `RepliesTold`, `PipelineAligned`, `PipelineTold`.
* Ownership: `ReachableInv`, `OwnerChanges`, `HandoverIsSafe`, `NoFailedRelease`, `FaultExit`,
  `StuckIffStranded`, `BrokenIsNotCalled`, `ResourcesAreFound`.
* Guards: `GuardsContained`, `EntryListedIff`, `EntryAliveIff`, `GuardLivesIff`, `GuardStartsIff`,
  `GuardedIsFound`, `ReadingDecides`, `ViolationTripsIff`.
* Measurements: `StaleUntilLocked`, `InvalidateIsolatedIff`.
* Sessions: `DisconnectFinal`, `CleanupIncomplete`, `AbortStrands`.
* Handlers as interleavings: `UnlockEachIsRun`, `CloseEachIsRun`, `ReadIsRun`, `TurnIsRun`,
  `LostNoteIsRun`, `LostTripIsRun`.
* Store, events, journal, line editor: `ValueIsLastWrite`, `KeysAreHistory`, `ReadOnlyProtected`,
  `FlushExact`, `KeysExact`, `MatchIsFits`, `Publish`, `BufferIsRecentHistory`,
  `PagesAreRecentHistory`, `RoundTripIff`, `LengthAndIndex`.

## Model

| member | source | states |
|---|---|---|
| Text.DecodeEncode | testcore/protocol.py:183 | every string survives `encode('utf-8')` followed by `decode('utf-8')` |
| Text.DecodeSplit | testcore/protocol.py:129 | strict decoding of bytes around a line feed splits into the decodings of the two sides |
| Text.DecodesOnlyEncodings | testcore/protocol.py:129 | whatever decodes is the encoding of the text: no overlong form, no surrogate, no cut character passes |
| Wire.FindCrlf | testcore/protocol.py:94-97 | the first CRLF at or after a position, or a proof that there is none |
| Wire.PyIntOfSigned | testcore/protocol.py:171 | `int()` of the decimal digits that the serializer writes is the number, for every integer |
| Wire.PyIntReads | testcore/protocol.py:171 | spaces around, a sign or none, and digits with single underscores between them are read as the number the digits stand for by their places |
| Wire.PyIntOnly | testcore/protocol.py:171 | and `int()` reads nothing else |
| Inline.ReadToken | testcore/protocol.py:146-160 | the two index loops read the token the specification names, quoted or not |
| Inline.Split | testcore/protocol.py:135-162 | the tokenizer loop returns the tokens of the whole line |
| Inline.TokensCarryLineFeed | testcore/protocol.py:135-162 | a line feed in the line is in one of the tokens |
| Inline.SplitWritten | testcore/protocol.py:135-162 | arguments that are quoted, bare (no space or tab, no quote in front) or, the last, behind an open quote, with runs of spaces and tabs between them, split back into exactly themselves |
| Inline.EveryLineIsWritten | testcore/protocol.py:135-162 | every line is such a line, so there is nothing else the tokenizer could do |
| Inline.StripBlanks | testcore/protocol.py:132 | stripping takes away the blanks on both sides and nothing else |
| ServerParser.RespParser.constructor | testcore/protocol.py:32-34 | empty buffer; limit 0 or none means 1 MiB |
| ServerParser.RespParser.ParseArray | testcore/protocol.py:225-310 | the loop that swaps `buffer` for nested arrays returns the array the recursive specification reads; the buffer is restored unless a nested parse raises, and then it is the slice of the innermost array |
| ServerParser.RespParser.ParseCommand | testcore/protocol.py:116-162 | one inline command, empty lines as an empty list, undecodable text as an error |
| ServerParser.RespParser.ParseMessage | testcore/protocol.py:67-92 | dispatch on the type byte; the buffer is unchanged unless it raises, and then known exactly |
| ServerParser.RespParser.Feed | testcore/protocol.py:36-65 | overflow clears the buffer; otherwise all complete messages in order and the incomplete rest in the buffer, or the first fault and what it leaves in the buffer |
| ServerParser.ArrayLeftRaises | testcore/protocol.py:296-305 | the slice that a raising nested array leaves behind is the end of the buffer and an array that raises the same fault |
| ClientParser.ParseArray | testcore_client/connection.py:206-246 | the offset loop, recursive on nested arrays, returns what the recursive specification reads |
| ClientParser.Stable | testcore_client/connection.py:134-246 | a frame that was read or rejected stays so, identically, when any bytes are appended |
| ClientParser.Local | testcore_client/connection.py:134-246 | a frame depends on its own bytes only: whatever follows may be cut off |
| ClientParser.Shift | testcore_client/connection.py:163-246 | parsing at an offset equals parsing the slice from there, nested arrays included |
| ClientParser.DeclaredCountBounded | testcore_client/connection.py:212-246 | an array that is read has exactly the declared number of elements, and that number is bounded by the bytes present |
| Agreement.ParsersAgree | testcore/protocol.py:67-310 | on every buffer that starts with a RESP type byte server and client return the same value and length, or both need more, or both raise for the same reason |
| Chunking.HeadStable | testcore/protocol.py:67-162 | a message read from a prefix of a clean stream is read from every continuation of it |
| Chunking.DrainExtend | testcore/protocol.py:58-65 | reading a clean stream in two parts gives the same messages, rest and faults as reading it at once |
| Chunking.CleanStreamAnyChunking | testcore/protocol.py:36-65 | a clean stream of any length, whose unread part fits the buffer at every call, is read the same, faults included, under every splitting |
| Chunking.UncleanStreamSomeChunking | testcore/protocol.py:99-114 | every other stream that reads without fault is read differently under some split in two |
| Chunking.ChunkingIndependentIffClean | testcore/protocol.py:36-162 | for a stream that reads without fault, independence of the splitting holds if and only if for every inline line met while reading the first LF ahead belongs to the first CRLF ahead, or no CRLF is ahead |
| Chunking.CutChangesReading | testcore/protocol.py:99-114 | `P`, LF, `Q`, CRLF fed at once is one command, cut behind the LF it is two |
| Chunking.FaultSticks | testcore/protocol.py:36-65 | after a fault of a message every further call raises the same fault, whatever is fed, until the buffer overflows |
| Serializer.Array | testcore/protocol.py:339-355 | the append loop returns the frame the specification names |
| Serializer.ArrayReadsBack | testcore/protocol.py:339-355 | a list of strings of any content, integers and nulls is read back by both parsers as exactly that list, taking exactly its bytes, whatever follows |
| Serializer.ArraysUniquelyDecodable | testcore/protocol.py:339-355 | equal bytes start with the same list and go on the same |
| Serializer.SimpleReadsBackIff | testcore/protocol.py:324-331 | a simple string comes back exactly if its bytes hold no CRLF |
| Serializer.ErrorReadsBackIff | testcore/protocol.py:357-360 | an error comes back as `ERR_` and its text exactly if its bytes hold no CRLF |
| Serializer.FramesReadBack | testcore/protocol.py:36-65 | frames written back to back are read one by one, in order, with nothing left |
| Serializer.BatchSurvivesAnyChunking | testcore/protocol.py:36-65 | a batch of frames of any length, whose unread part fits the buffer at every call, reaches the dispatcher exactly and in order under every splitting |
| Serializer.WrittenLineReadsBack | testcore/protocol.py:116-162 | an inline command whose arguments are quoted, bare or (the last) behind an open quote, blanks around it, ended by CRLF, is read back as exactly these arguments, taking exactly the line |
| Serializer.NestedReadsBack | testcore/protocol.py:225-310 | every value, lists nested to any depth, is read back by both parsers from its frame, whatever follows |
| Serializer.NegativeReadsNull | testcore/protocol.py:195-240 | a negative length or count of any size is null |
| Serializer.BadNumberRaises | testcore/protocol.py:164-240 | a length, count or integer that is no number is refused by both parsers, each with its own reason |
| Serializer.BadBulkRaises | testcore/protocol.py:205-222 | so is a bulk string whose bytes are not followed by CRLF or are no text |
| Serializer.BadElementRaises | testcore/protocol.py:296-310 | and an array with an element of no RESP type |
| Client.EncodeCommand | testcore_client/connection.py:74-83 | the part list joins to the command frame |
| Client.CommandMatchesServer | testcore_client/connection.py:74-83 | the client's frame is byte for byte the server serializer's array of the same strings |
| Client.EncodeBatch | testcore_client/connection.py:64 | the packed batch is the concatenation of the command frames |
| Client.Connection.ReceiveMore | testcore_client/connection.py:109-123 | one recv: data is appended, end of stream closes, timeout and error raise |
| Client.Connection.ParseOne | testcore_client/connection.py:125-132 | reads more only while the buffer holds no frame, and removes exactly the frame it returns |
| Client.Connection.SendPipeline | testcore_client/connection.py:58-72 | one result per command, an exception in place where a read raises |
| Client.ServerRepliesAreFrames | testcore/protocol.py:324-374 | simple strings and errors without CRLF, integers, bulk strings and arrays of the serializer are frames |
| Client.RepliesAligned | testcore_client/connection.py:58-132 | with one frame per command available, result i is reply i or the server's error it carries, and exactly the bytes of the frames are consumed, however recv splits them |
| Client.RepliesTold | testcore_client/connection.py:97-107 | an error reply comes out as the server's error with its text, as does every string that decodes to an `ERR_` text; any other reply as its value |
| Client.PartialReply | testcore_client/connection.py:109-132 | while only part of a reply has come, a timeout keeps all its bytes for the next read, and a closed or failing connection drops them |
| Client.ClosedFails | testcore_client/connection.py:58-74 | on a closed connection every further result of a batch is ConnectionError |
| Client.FaultRepeats | testcore_client/connection.py:125-132 | bytes that are no frame stay, and every further result of the batch is the same protocol error |
| Client.Pipeline.Queue | testcore_client/client.py:684-691 | a blocked command changes nothing; any other is appended with its parser |
| Client.Pipeline.Execute | testcore_client/client.py:693-714 | results are the parsers applied in order to the replies; both queues are emptied, or kept when sending raises |
| Client.Pipeline.Reset | testcore_client/client.py:716-719 | both queues are emptied |
| Client.PipelineAligned | testcore_client/client.py:700-714 | result i is parser i applied to reply i unless reply i decodes to an `ERR_` text, and the bytes behind the k frames stay unread |
| Client.PipelineTold | testcore_client/client.py:693-714 | the same told by the replies: an error of the server as it is, and parser `i` on anything else |
| Client.BlockedIff | testcore_client/client.py:668-690 | the commands a pipeline refuses, in any case |
| Glob.PrefixPatternMatches | testcore/store.py:123-131 | on patterns of the fast path the general matcher is the prefix test |
| Glob.ExactPattern | testcore/store.py:129-131 | a pattern without `*`, `?` and `]` matches itself only |
| Glob.MatchIsFits | testcore/store.py:129-131 | the matcher accepts exactly the names that can be cut into parts that the pieces of the pattern stand for: characters, `?`, `*`, and bracket lists of characters and ranges, negated or not |
| Store.KeyValueStore.Set | testcore/store.py:52-73 | KSET with NX, XX and RO: refusal, unmet condition or the new value and owner |
| Store.KeyValueStore.MSet | testcore/store.py:83-94 | all keys are checked before any is written |
| Store.KeyValueStore.Delete | testcore/store.py:96-112 | all keys are checked before any is removed; counts keys that were there, duplicates once |
| Store.KeyValueStore.FlushDb | testcore/store.py:138-146 | the loop over the keys removes what the fold over them removes |
| Store.KeyValueStore.ReleaseOwner | testcore/store.py:148-152 | exactly the session's ownerships go, values stay |
| Store.KeyValueStore.Keys | testcore/store.py:118-131 | all three branches return the unreserved keys the general matcher admits, in insertion order |
| Store.KeyValueStore.WriteMeas | testcore/store.py:162-166 | one entry is replaced |
| Store.KeyValueStore.InvalidateMeas | testcore/store.py:168-181 | every entry under the prefix becomes STALE with its value; returns the resources that were not STALE |
| StoreWrites.ReservedIff | testcore/store.py:19-42 | the reserved keys are those with one of the seven prefixes, all measurement keys among them |
| StoreWrites.SetRefusedIff | testcore/store.py:52-66 | KSET is refused exactly for reserved keys and another session's, unmet exactly if NX or XX fails, and changes nothing then |
| StoreWrites.SetStores | testcore/store.py:67-73 | a stored KSET: the key has the new value whatever it had, is last in the order if new, becomes or ceases to be the session's, and everything else stays |
| StoreWrites.MSetStores | testcore/store.py:83-94 | KMSET is refused as a whole or gives every key the value of its last pair, owners and all else kept |
| StoreWrites.DeleteStores | testcore/store.py:96-112 | KDEL is refused as a whole or removes the named keys with their owners, counts those that were there once each, and keeps the rest in its order |
| StoreWrites.KeysExact | testcore/store.py:118-131 | KEYS lists the stored keys that the pattern stands for, once each, in the order they were first stored |
| StoreWrites.ValueIsLastWrite | testcore/store.py:52-146 | after every history a key has the value of the last accepted write with no removal behind it, or its first value if nothing touched it, and no other |
| StoreWrites.ReadOnlyStays | testcore/store.py:44-73 | the value of a stored KSET with RO stays whatever other sessions do |
| StoreHistory.StepConsistent | testcore/store.py:44-152 | every operation keeps owned keys present and stored keys unreserved and listed once |
| StoreHistory.RunConsistent | testcore/store.py:44-152 | so does every history |
| StoreHistory.StepProtected | testcore/store.py:83-112 | an operation of another session leaves a read-only key alone, and a KMSET or KDEL that names it leaves the whole store unchanged |
| StoreHistory.ReadOnlyProtected | testcore/store.py:44-152 | over any history of other sessions' operations a read-only key keeps value, presence and owner |
| StoreHistory.FlushExact | testcore/store.py:138-146 | after FLUSHDB exactly the keys read-only for other sessions are left |
| StoreHistory.ColonFreePrefix | testcore/store.py:158-173 | among names without colon a prefix covers its own instrument's entries and no others |
| StoreHistory.PrefixesApartIff | testcore/store.py:158-173 | one name's prefix covers no entry of another if and only if neither name with a colon behind it begins the other |
| StoreHistory.ColonNamesOverlap | testcore/store.py:168-181 | two names IADD accepts that are not apart: invalidating `a` reaches entries of `a:b` |
| StoreHistory.InvalidateIsolatedIff | testcore/store.py:168-181 | invalidating one instrument leaves every entry of another as it is, in every store, if and only if the two names are apart |
| BenchInvariant.StepInv | testcore/commands.py:92-97 | every step of a command, guard, health task or cleanup keeps the invariant over ownership, tables, tasks, keys and subscriptions |
| BenchInvariant.ReachableInv | testcore/server.py:149-217 | the invariant holds in every state of every run |
| BenchFrames.Frame | testcore/commands.py:92-97 | every step changes only the fields that belong to it |
| BenchInvariant.StopGuardInv | testcore/watch.py:66-74 | stopping one guard keeps the tables: no empty table, no unlisted task |
| BenchInvariant.StartGuardInv | testcore/watch.py:45-64 | starting or replacing a guard keeps them |
| BenchInvariant.ReleaseInv | testcore/commands.py:775-785 | releasing an instrument keeps the invariant, its guards gone |
| BenchEvents.Effect | testcore/instruments.py:184-329 | what every step does to every instrument, all its fields, decided by the step and the state before it: nothing, acquire from IDLE, release by the owner, complete an init with the resources found, reset from a fault, break to FAULT or to UNRESPONSIVE, or count a ping |
| BenchEvents.LockAllOrNothing | testcore/commands.py:731-772 | ILOCK of a list, duplicates included, takes every named instrument and leaves all others as they were, or changes nothing |
| BenchEvents.PingsFatalIff | testcore/health.py:84-98 | a series of pings makes an instrument UNRESPONSIVE if and only if one times out or ends three failures in a row, counted on from the failures it had |
| BenchSafety.IdleIsUnowned | testcore/instruments.py:196-215 | in every reachable state an IDLE instrument has no owner |
| BenchSafety.OwnerChanges | testcore/instruments.py:184-215 | an owner changes only from nobody to the session whose ILOCK it is, or from a session to nobody by its own release |
| BenchSafety.StuckForever | testcore/commands.py:751-758 | an unowned instrument that is not IDLE stays so under every sequence of steps |
| BenchSafety.UserOwns | testcore/commands.py:135-140 | only the owner of a READY instrument starts an owner's driver call on it |
| BenchSafety.HandoverIsSafe | testcore/server.py:156-182 | between uses by two sessions the first released it with safe_state returning, then the second locked it, then an init completed, and no release in between had a failing safe_state |
| BenchSafety.NoFailedRelease | testcore/instruments.py:205-212 | after a release with a failing safe_state nobody owns the instrument again |
| BenchSafety.FaultExit | testcore/instruments.py:256-306 | an instrument in FAULT or UNRESPONSIVE that is READY later, with no init of it in flight, was reset or safely released, after which an init was started and completed |
| BenchSafety.GuardsContained | testcore/watch.py:45-87 | watched instruments are registered, owned and not IDLE, no table is empty, and every live guard task is listed under exactly one entry and guards the instrument now registered under that name |
| BenchGuards.StartGuardEntry | testcore/watch.py:45-64 | a started guard is a new live task, and every other entry keeps its own |
| BenchGuards.AnyEntry | testcore/watch.py:109-159 | an entry goes exactly if the step ends it, a listed one keeps its live task unless that guard's read or its writing an event crashes, and no step but its own changes a guard that stays |
| BenchGuards.EntryAliveIff | testcore/watch.py:128-159 | in every reachable state a listed entry has a live task if and only if no earlier read of that task raised something other than a DriverError and no subscription came or went while it was writing an event |
| BenchGuards.EntryEndsIff | testcore/watch.py:66-80 | a listed guard entry is gone after a step if and only if the step is IREMOVE of the instrument, IUNLOCK coming to it (in ALL mode only for its owner), its owner's cleanup coming to it, a form of IUNWATCH that covers it, or an IWATCH that replaces it |
| BenchGuards.EntryListedIff | testcore/watch.py:45-80 | over every run an entry is still listed if and only if no step in between ended it |
| BenchGuards.GuardLivesIff | testcore/watch.py:109-159 | over every run a guard is still alive if and only if since then no step ended its entry and its loop was not left by an exception |
| BenchTrips.StepOfDue | testcore/watch.py:145-184 | a guard that has read a value outside its limits still has to trip after a step, or the step is the trip, ends its entry, or is an event that raises |
| BenchTrips.ReadingDecides | testcore/watch.py:140-156 | a number under the lower limit or over the upper one, each if there is one, makes the guard due; one between the limits, both included, or a text that is no number, does not; the value is noted |
| BenchTrips.FailedRead | testcore/watch.py:128-138 | a read that fails notes an ERROR without value and makes nothing due; only a timeout changes the state |
| BenchTrips.ViolationTripsIff | testcore/watch.py:120-184 | after a read outside the limits the guard has to trip, over every run, exactly until it trips (the instrument FAULT and the value noted), its entry is ended, or writing an event raises |
| BenchCalls.CommandCallIff | testcore/instruments.py:256-285 | a driver call of IINIT, IALIGN or IPING is new after a step exactly if the step starts one: IINIT on LOCKED or READY, IALIGN on LOCKED, IPING on what is not broken |
| BenchCalls.InitTakesCalls | testcore/instruments.py:265-272 | IINIT makes two calls, three with a configuration, and only the last changes the instrument |
| BenchCalls.UseCallIff | testcore/instruments.py:331-377 | an owner's call is new exactly after it is started on a READY instrument the command was admitted to |
| BenchCalls.GuardCallIff | testcore/watch.py:119-130 | a guard calls exactly after its tick, if its instrument is READY |
| BenchCalls.HealthCallIff | testcore/health.py:66-88 | a health task calls exactly after its tick, unless the instrument is broken |
| BenchCalls.BrokenIsNotCalled | testcore/instruments.py:403-418 | no step starts a call on an instrument that is FAULT or UNRESPONSIVE |
| BenchCalls.GuardStartsIff | testcore/commands.py:537-584 | a guard task is new exactly after an IWATCH by the owner of a READY instrument that has the resource, with the limits given |
| BenchCalls.NamesIff | testcore/instruments.py:132-182 | what a name stands for after a step: a new instrument after an IADD that gets through, none after IREMOVE, otherwise what it did before |
| BenchCalls.HealthListedIff | testcore/health.py:34-53 | an instrument has a health task from its IADD until IREMOVE or an event that raises |
| BenchCalls.SubscribedIff | testcore/events.py:106-140 | who is subscribed to what after a step |
| BenchPast.KeysAreHistory | testcore/server.py:191-193 | the store of the bench is at all times what the accepted key commands and the ends of sessions make of the empty one |
| BenchPast.ResourcesAreFound | testcore/instruments.py:270-272 | the resources of an instrument are those its last init found, and none after a release or reset |
| BenchPast.GuardedIsFound | testcore/watch.py:45-64 | behind every live guard there is the IWATCH of its owner on a READY instrument and, before that, the init that found the resource, with no release or reset between |
| BenchPhases.UnlockGoesOn | testcore/commands.py:798-828 | IUNLOCK of a list ends at the first name that is not the session's or when publishing raises; ALL goes on, and ends at a name that is gone |
| BenchPhases.UnlockAllCovers | testcore/commands.py:798-806 | IUNLOCK ALL begins with every name that is the session's |
| BenchPhases.FailureEnds | testcore/instruments.py:256-285 | a driver call that fails ends IINIT, IALIGN and IPING; one of IALIGN that succeeds leads to the next name |
| BenchPhases.AlignGoesOn | testcore/commands.py:682-697 | IALIGN goes through its names as long as they are LOCKED |
| BenchPhases.UseStarts | testcore/instruments.py:331-377 | a call of a use that is started leaves those to come, and runs if its instrument is READY |
| BenchPhases.UseReturns | testcore/instruments.py:308-329 | a call that returns leaves those that run, and no other does |
| BenchPhases.UseEnds | testcore/commands.py:957-1020 | a use ends when all its calls have been started and have ended |
| BenchPhases.AfterRead | testcore/watch.py:135-156 | after a read its event is written if anybody hears it, then comes the trip if it is due |
| BenchPhases.AfterTrip | testcore/watch.py:179-193 | after a trip its measurement event and then its instrument event are written, each if anybody hears it |
| BenchPhases.AfterEvent | testcore/events.py:174-184 | an event that was being written ends the loop exactly if the number of subscriptions to its channel has changed |
| BenchPhases.AfterPingPhase | testcore/health.py:90-103 | a health task writes its event exactly at the third failure in a row, no timeout, of an instrument not yet UNRESPONSIVE, if anybody hears it |
| BenchPhases.AfterHealthEvent | testcore/health.py:101-103 | and ends exactly if the number of subscriptions has changed meanwhile |
| BenchMeasurements.FreeEntriesKept | testcore/commands.py:838-898 | while nobody owns an instrument no step does more to its entries than mark them STALE |
| BenchMeasurements.StaleUntilLocked | testcore/commands.py:775-785 | from a release, by IUNLOCK or disconnect, safe or not, to the next ILOCK or IREMOVE all entries of the instrument are the ones it had, with their values, and STALE; for a name without colon |
| BenchMeasurements.ReleaseIsolated | testcore/server.py:165-174 | the release changes no entry of any other instrument whose name is apart |
| BenchMeasurements.ReleaseReaches | testcore/server.py:165-174 | for names that are not apart it reaches some key of the other name and makes its entry STALE |
| BenchMeasurements.ColonNameExposed | testcore/commands.py:866-898 | any session overwrites an entry of a name with a colon by an IREAD with the MEAS flag: the condition on the name in `StaleUntilLocked` is needed |
| BenchMeasurements.RegistryFrame | testcore/instruments.py:132-182 | only IADD and IREMOVE change what is registered |
| BenchSessions.SettledForever | testcore/server.py:295-302 | a session whose cleanup is over never comes back, because ids are not used twice |
| BenchSessions.OwnershipFrozen | testcore/server.py:156-182 | a session past its cleanup loop neither takes nor releases anything |
| BenchSessions.DisconnectFinal | testcore/server.py:149-217 | after a cleanup that did not abort, in every later state no instrument, key or subscription belongs to the session |
| BenchSessions.GoneIsForgotten | testcore/server.py:149-217 | so it is for every session that was connected once and is gone, unless its cleanup aborted |
| BenchSessions.CleanupIncomplete | testcore/server.py:161-188 | an instrument still belongs to a session that is gone if and only if the cleanup aborted while the session owned one that is still registered |
| BenchSessions.NoRemovalNoAbort | testcore/server.py:161-162 | a cleanup during which no instrument is removed does not abort |
| BenchSessions.AbortStrands | testcore/server.py:187-188 | what the session owned at the abort it owns in every later state, and nothing else |
| BenchStuck.IdleSpoiledIff | testcore/instruments.py:231-254 | an IDLE instrument is broken by a step if and only if it ends a ping, init or align call of it with a timeout, or a health ping with a timeout or the third failure in a row |
| BenchStuck.StuckIffStranded | testcore/instruments.py:196-215 | an instrument is unowned and not IDLE if and only if an earlier release of it had a failing safe_state or, while it was IDLE, an init completed or one of the calls of `IdleSpoiledIff` failed |
| BenchWitnesses.InitOverwritesFault | testcore/health.py:84-103 | a health ping that times out during an IINIT is overwritten: READY again without reset or release |
| BenchWitnesses.ResetsIff | testcore/instruments.py:287-306 | IRESET of a broken instrument makes it LOCKED if and only if the driver connects again, for any connected session, and the owner stays |
| BenchWitnesses.StrangerResets | testcore/commands.py:668-679 | a run: a session resets another session's instrument |
| BenchWitnesses.ReadyWithoutOwner | testcore/instruments.py:256-272 | an IINIT by one session that ends after the owner disconnected leaves the instrument READY with no owner, for good |
| BenchWitnesses.RemovalStrandsInstrument | testcore/server.py:161-188 | a removal during a cleanup leaves another instrument with the dead session in every continuation |
| GuardWitnesses.StrangerEndsGuard | testcore/commands.py:775-779 | a run: IUNLOCK by a session that owns nothing ends the guard of a READY instrument of another session, for good |
| GuardWitnesses.LowerLimitTrips | testcore/watch.py:145-156 | runs with a lower limit of 1 and no upper one: every number under 1 makes the instrument FAULT, none from 1 on does |
| GuardWitnesses.ReadEndsGuard | testcore/watch.py:128-138 | a run: a read raises and the guard is gone, its entry listed, the instrument READY |
| GuardWitnesses.SubscriberEndsGuard | testcore/events.py:174-184 | a run: the guard reads a value outside its limits, its only subscriber goes while the event is written, and the guard is gone without a trip |
| Registry.InstrumentRegistry.Add | testcore/instruments.py:132-169 | a new IDLE instrument under an unused name, spaces allowed, if the driver connects |
| Registry.InstrumentRegistry.Remove | testcore/instruments.py:171-182 | the name goes, no instrument changes |
| Registry.InstrumentRegistry.Lock | testcore/instruments.py:184-194 | takes an IDLE instrument, tolerates the owner, refuses everybody else with the reason |
| Registry.InstrumentRegistry.Unlock | testcore/instruments.py:196-215 | by the owner: IDLE or FAULT as safe_state returns or not, no owner, no resources; otherwise the reason |
| Registry.InstrumentRegistry.HandleLock | testcore/commands.py:731-772 | the check loop and the acquire loop over instrument objects take all or nothing, and report the first name that cannot be locked |
| Registry.InstrumentRegistry.AcquireLoop | testcore/commands.py:761-766 | the acquire loop updates the objects as the fold over the names does, duplicates included |
| Registry.InstrumentRegistry.Reset | testcore/instruments.py:287-306 | FAULT or UNRESPONSIVE to LOCKED, if the driver connects again |
| Registry.InstrumentRegistry.CallReturned | testcore/instruments.py:308-329 | the state a driver call leaves behind for each of its four outcomes |
| Registry.InstrumentRegistry.CallEnded | testcore/instruments.py:231-254 | without the tracking only the watchdog changes the state |
| Registry.InstrumentRegistry.CheckUse | testcore/commands.py:135-140 | tells unknown names, strangers, missing init and faults apart, and admits exactly the owner of a READY instrument |
| Registry.InstrumentRegistry.BecomeReady | testcore/instruments.py:270-272 | resources and READY, whatever the state was |
| Registry.InstrumentRegistry.HealthReturned | testcore/health.py:84-98 | failures count up, the third in a row or a timeout makes it UNRESPONSIVE, a success resets the count |
| Registry.RepliesTell | testcore/commands.py:135-140 | the reasons why locking, unlocking or using is refused, by owner and state, and for an unknown name |
| Watching.WatchManager.Start | testcore/watch.py:45-64 | an earlier guard of the same resource is replaced |
| Watching.WatchManager.Stop | testcore/watch.py:66-74 | exactly one entry and its task go, the table with its last entry |
| Watching.WatchManager.StopInstrument | testcore/watch.py:76-80 | the loop cancels exactly the tasks of the instrument's table |
| Handlers.Server.UnlockWithMeas | testcore/commands.py:775-785 | guards, registry and store change together as one release, or only the guards stop |
| Handlers.Server.HandleUnlock | testcore/commands.py:813-823 | the loop ends at the first name the session does not own, and the reply is the one for that name |
| Handlers.UnlockReplyIs | testcore/commands.py:813-828 | the reply to IUNLOCK of a list is the refusal of the first name that the session does not own or that comes a second time, which is not locked any more; OK if and only if there is none |
| Handlers.Server.ReleaseAll | testcore/commands.py:798-806 | the loop over a listing releases what the session owns |
| Handlers.AllReleased | testcore/commands.py:798-806 | the loop over a complete listing leaves nothing to the session |
| Handlers.Server.Close | testcore/server.py:156-193 | the cleanup of instruments and keys run without interruption |
| Handlers.Server.HandleUnwatchAll | testcore/commands.py:600-607 | going through the listing name by name is the single step of the step system |
| Handlers.Server.HandleUnwatch | testcore/commands.py:617-633 | one entry and its task go, and its measurement becomes STALE with its value |
| Handlers.UnwatchStale | testcore/commands.py:617-633 | the entry of that resource, if there is one, becomes STALE with its value, and no other changes |
| Handlers.Server.HandleRead | testcore/commands.py:854-898 | IREAD with the MEAS flag: which error the client gets, which errors are noted and as what text, what a call leaves behind, and that a successful reply is the value read |
| Handlers.ReadTargetIs | testcore/commands.py:706-711 | IREAD's instrument and resource: two arguments, or one split at its first colon, refused if a side is empty |
| Handlers.ReadNotes | testcore/commands.py:838-898 | what a marked IREAD of a registered instrument leaves behind: nothing for a stranger; the value, or no value and the reason, for the owner; FAULT only after a crash, UNRESPONSIVE only after a timeout |
| Handlers.ReadTold | testcore/commands.py:887-898 | the client is given a value exactly if it owns the READY instrument and the call returns, and else told the reason |
| Handlers.ReadUnmarked | testcore/commands.py:887-898 | without the flag nothing is noted and all else is the same |
| Handlers.ReadUnknown | testcore/commands.py:887-898 | with it an unknown instrument is noted as an error under its name |
| Handlers.ErrorStatusIs | testcore/commands.py:838-851 | an error is noted as TIMEOUT if its text mentions one in any case, otherwise as ERROR and the text |
| Handlers.Server.WatchTurn | testcore/watch.py:120-159 | one turn of the guard loop, trip included, and where an event that raises leaves it |
| Handlers.TurnDecides | testcore/watch.py:140-184 | what a turn on a READY instrument leaves behind: FAULT and the value noted as the fault for a number under the lower limit or over the upper one, otherwise only the value |
| Handlers.ReadIsRun | testcore/commands.py:887-898 | IREAD run without interruption is a run of the step system |
| Handlers.TurnIsRun | testcore/watch.py:120-159 | so is one turn of a guard whose events are written undisturbed |
| Handlers.LostNoteIsRun | testcore/watch.py:135-143 | so is a turn that ends while the event of its read is written, because a subscription to measurements goes: no threshold is checked |
| Handlers.LostTripIsRun | testcore/watch.py:181-182 | and one that ends while the event of its trip is written |
| Handlers.UnlockEachIsRun | testcore/commands.py:813-823 | IUNLOCK run without interruption is a run of the step system |
| Handlers.CloseEachIsRun | testcore/server.py:161-186 | so is the cleanup loop |
| Handlers.UnwatchEachIsAll | testcore/commands.py:600-607 | stopping and invalidating the owned instruments one by one equals doing it for all at once |
| Events.OrderIrrelevant | testcore/events.py:56-61 | channel parsing gives the same result in every iteration order of the bases |
| Events.Parse | testcore/events.py:47-61 | so does the loop over the set |
| Events.ValidChannelIff | testcore/events.py:64-67 | the channels that can be subscribed to: the six bases, each alone or with a filter |
| Events.EventBus.Subscribe | testcore/events.py:106-118 | adds exactly the pair, under its base, unless invalid or already there |
| Events.EventBus.Unsubscribe | testcore/events.py:120-130 | removes exactly the pair |
| Events.EventBus.UnsubscribeAll | testcore/events.py:132-140 | removes exactly the handler's subscriptions and returns each of their channels once |
| Events.EventBus.SubscriberChannels | testcore/events.py:142-149 | every channel of the handler, each once |
| Events.EventBus.StoredOnce | testcore/events.py:80-87 | a handler is stored once per channel, under one base |
| Events.EventBus.Publish | testcore/events.py:156-192 | one write per subscription whose channel hears the event (the bare channel everything, a filter the events without key and the keys it matches), the count of those that worked, and only the failed ones removed; a change of size during a write raises with the set as it was left |
| Events.PrefixFilter | testcore/events.py:176-180 | a filter whose only special character is a `*` at its end lets exactly the keys with that prefix through |
| Events.ExactFilter | testcore/events.py:176-180 | a filter without special characters lets exactly its own key through |
| Events.Client.HandleSubscribe | testcore/commands.py:1265-1294 | refused in monitor mode and without arguments; channels before the first invalid one are subscribed even then; the totals of the reply; subscriber mode is entered only if all are valid |
| Events.TotalsCount | testcore/commands.py:1287-1290 | each total counts the distinct channels the client has by then |
| Events.Client.HandleUnsubscribe | testcore/commands.py:1297-1334 | without arguments every channel goes once and the counts run from n - 1 down to 0; subscriber mode ends when nothing is left |
| Events.CountDown | testcore/commands.py:1318-1322 | over a list of all channels, each once, the counts run down to 0 |
| Journal.Journal.Record | testcore/journal.py:58-71 | excluded commands leave no trace, any other is appended and the oldest evicted |
| Journal.Journal.Clear | testcore/journal.py:97-101 | empties the buffer and counts what was in it |
| Journal.ExcludedIff | testcore/journal.py:48-63 | PING, JOURNAL and COMMAND in any case are the commands that leave no trace |
| Journal.JoinReads | testcore/journal.py:64-71 | the recorded text of a command of bare words is read as exactly these words |
| Journal.BufferIsRecentHistory | testcore/journal.py:47-71 | after every sequence of records and clears the buffer is the last maxlen recorded entries since the last clear |
| Journal.TailLength | testcore/journal.py:73-77 | `tail(count)` is the end of the buffer of length min(count, length) if and only if the count is positive or the buffer is empty; it is some end of it for every count |
| Journal.PagesAreAll | testcore/journal.py:79-95 | for every page size the pages put together are the whole buffer |
| Journal.PagesAreRecentHistory | testcore/journal.py:47-95 | so they are the most recent records, in order |
| LineUtf8.RoundTrip | cli/linenoise/utf8.c:123-162 | decoding the encoding of a code point of 21 bits, whatever follows, gives it back with its length |
| LineUtf8.RoundTripIff | cli/linenoise/utf8.c:39-64 | the round trip holds if and only if the code point has at most 21 bits |
| LineUtf8.DecodesOnlyEncodings | cli/linenoise/utf8.c:123-162 | what takes more than one byte is the shortest encoding of its code; any other byte stands for itself |
| LineUtf8.FirstByteTellsLength | cli/linenoise/utf8.c:66-82 | `utf8_charlen` of the first byte is the length of the encoding |
| LineUtf8.StaysInside | cli/linenoise/utf8.c:123-162 | decoding never goes beyond the end of a NUL-terminated string |
| LineUtf8.DecodeEncodeAll | cli/linenoise/utf8.c:84-98 | decoding the bytes of an encoded list gives the list back |
| LineUtf8.SkipEncodings | cli/linenoise/utf8.c:113-121 | after n characters the position is the total length of the first n encodings |
| LineUtf8.FromUnicode | cli/linenoise/utf8.c:39-64 | the encoding is stored at the pointer and nothing else is touched |
| LineUtf8.StrLen | cli/linenoise/utf8.c:84-98 | the loop counts the characters of the given bytes, or of the bytes before the NUL |
| LineUtf8.Index | cli/linenoise/utf8.c:113-121 | the loop returns the position after the given number of characters |
| LineUtf8.LengthAndIndex | cli/linenoise/utf8.c:84-121 | on an encoded list the two loops return its length and the byte offset of each character |

## Left out

* The per-instrument call lock and the busy flag (testcore/instruments.py:53-54): `Bench` lets driver
  calls and other steps interleave where the code would make them wait.
* Suspension while an event is written is modelled where something can follow from it: guards and
  health tasks have phases for it and end when a subscription came or went meanwhile, IUNLOCK can be
  left there (`UnlockRaises`), and the cleanup loop can be interrupted before every name. All other
  events are the last thing their command does; the event of a timeout or crash is a task of its own.
  With these phases every interleaving of the code is a run, so what holds for all runs holds for the
  code's. What a disturbed IUNLOCK, IADD or ILOCK replies is not part of `Bench`.
* Events.EventBus.Publish: says nothing about a set that keeps its size while members are replaced
  during a write, because which members the iteration then visits depends on the hash table.
* BenchInvariant.StepInv: instruments are values known by the position they were added at, because
  steps that interleave cannot be sequential methods; `Registry`, `Watching` and `Handlers` hold the
  object form of the code between two suspension points.
* Transports, drivers and their text protocols: a driver call ends in a result, a DriverError, another
  exception or a timeout, chosen freely. IREMOVE, IADD, IRESET and safe_state are one step each.
* Threads that outlive a timeout, socket back-pressure, server shutdown, max_clients, MONITOR.
* Timestamps, response statistics and the interval of IWATCH; the float conversion of a guard's value
  is a parameter of the step, a real number or none. An infinite value behaves as a number beyond the
  limits, NaN as none.
* The order of INSTRUMENT listings: the model allows every order, the code sorts.
* The JSON payload and the bytes of an event are opaque.
* `Feed` returns no messages when one of them raises, as the code does; what the server does with the
  connection afterwards is not modelled.
* Python's limits on recursion depth and on the number of digits of `int()`.
* `upper()` is modelled as far as it can produce the ASCII letters of a command name.
* `fnmatch` is the case-sensitive matcher of POSIX systems.
* INFO, DUMP, BENCH, IINFO, CLIENT LIST, TIME, JSON formatting, argument parsing of IADD and IWATCH,
  configuration files and the rest of the line editor: text in and out without a hard property.

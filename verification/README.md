# The vault store and its sessions, modelled and proved

A vault keeps every channel in one flat, ordered key/value database. This project models the parts
of the vault that decide what a client sees, and proves what they guarantee:

- **Keys and database.** `ByteStrings` (byte order, big-endian numbers, ascending enumerations),
  `Keys` (the key layouts), `Database` (frozen snapshots, the prefix iterator, the reverse
  iterator), `Messages`, `StreamOptions`.
- **Writing.** `Transactions` says what each write does and which error it meets; `Store` has the
  store and channel objects with their in-place key building and proves them against it;
  `StoreRuns` follows arbitrary runs of writes.
- **The live reader.** `Reader` is a step machine over one reader, its database, its watcher, the
  pending notifications and resets and its context. Every scheduler or `select` choice is an event,
  so a run is a list of events. `ReadLoop` has the loop as the code writes it and proves that it
  does exactly what the machine does under any schedule. `ReaderInvariant`, `LiveFeed`, `Wakeup`,
  `Cancellation` and `Projection` prove what holds over all runs, `FeedStarts` where a feed starts and
  how resets reach it, `Progress` that a reader which is let run comes to the end of its channel, and
  `LostEntries` exactly when a reader can sleep through entries.
- **Index replay.** `IndexReplay` is the replay loop, `Bookmarks` what it means for clients.
- **Sessions.** `Session` is the request protocol on values, `Server` the connection object
  proved against it, `SessionRuns` what holds over all sessions, `Registry` the table of readers
  of a channel, `Client` the client's numbering, `Timestamps` the time prefix of entry IDs.
- **The whole.** `Vault` puts one connection's session and its readers, live ones and index
  replays, over the same database; `VaultRuns`, `Feeds` and `StreamRuns` prove what a client hears
  under each of its request IDs. `Guarantees` has the other statements that span several layers.

The machine's reader state carries a history next to the loop's variables: one `Epoch` for the
time between two resets, with the keys published and the snapshot each one came from. The history
never influences a step.

## What the proofs found

These hold of the code as it is; each is stated by a lemma with the exact condition or a witness.

- *A parked reader can sleep through entries* for three reasons, each with a witness run. A
  notification is lost when the watcher's database subscription is registered only after the reader
  has parked (`LostEntries.LateWatcherLosesEntry`); the comment at `server/server_test.go:49-53`
  describes that race. An open without streaming on a channel that the connection already reads
  hands the reader a nil reset (`store/store.go:369-371,510-512`; `SessionRuns.NilResetExactly` says
  which requests do that): the reader leaves its snapshot without marking it dirty
  (`LostEntries.NilResetLosesEntry`). And with a seek key below the channel's prefix a key of another
  keyspace, like the host's snapshot key, can stop the iterator before it reaches the channel
  (`LostEntries.LowSeekLosesEntry`, `LostEntries.LowResetLosesEntry`). A quiet reader misses nothing
  in all runs if and only if the watcher is registered before the reader starts, no nil reset can
  reach it, and all options that it starts with or is reset to either begin inside the channel (at
  its head, at an empty seek key, or at one that is not below the prefix) or allow nothing to be
  sent at all (`LostEntries.WakeupNeedsExactly`).
- *Bookmarks have the resolution of a second.* A replay from a bookmark delivers every later
  second, and within the bookmark's own second only greater IDs; an entry that arrives later in the
  same second with a smaller ID is not delivered (`Bookmarks.BookmarkResume`,
  `Bookmarks.SameSecondCanBeMissed`).
- *Starting at an entry does not work.* `protos/vault.proto:181-187` says that AtEntry starts with
  the entry named and AfterEntry right after it. `newStreamOpts` hands the raw entry ID through as
  the seek key (`server/server.go:154,197`), and 30 bytes are never inside a 33-byte prefix: the
  stream is the whole channel from its first entry when the ID sorts below the prefix and is not
  blocked, and empty otherwise, whichever entry is named; AfterEntry skips nothing. A request gets
  what it was promised if and only if, in the first case, every entry of the channel is one that it
  asked for (none sorts before the named one), and in the second none is (none follows it)
  (`Guarantees.EntryModesMissTheirEntry`, `Guarantees.EntryModesStream`).
- *Seeks below the prefix.* The iterator goes to the lower bound over the whole database. A foreign
  key between the seek key and the prefix makes the scan empty; scans are isolated from other
  writers if and only if their seek key is empty or not below the prefix
  (`StoreRuns.ScanIsIsolatedExactly`).
- *Resets are partial.* A reset keeps the count, the last key seen and the original flags, so an
  entry equal to the last key seen is not sent again (`LiveFeed.ResetEpochs`). It is taken only
  inside a snapshot, not while the reader is parked.
- *Opening a channel twice.* The comment at `server/server.go:251-253` says that a new stream
  closes the old one. The code keeps the old reader under the old request ID; cancelling the new ID
  does not stop it (`SessionRuns.ReopenedStreamDoesNotStop`), and no message ever comes under the
  new one, not even when the old reader is cancelled (`StreamRuns.ReopenedStreamIsSilent`).
- *Opening without streaming* ends in a nil dereference (`store/store.go:392`) unless the
  connection already reads that channel (`SessionRuns.CrashesExactly`).
- *Replaying from the index by request.* `protos/vault.proto:192-196` says that the seek ID is the
  index; the server always starts at the beginning of the index (`server/server.go:176-178`). A
  client that asks to go on from a bookmark gets what it was promised if and only if nothing in the
  channel's index sorts below the bookmark (`Guarantees.IndexModeIgnoresBookmark`), so everything
  that arrived in earlier seconds comes again (`Guarantees.IndexModeRepeats`,
  `Guarantees.IndexModeRepeatsFirst`). The bookmark guarantees below hold of the store.
- *Entry IDs of other lengths* are padded or cut to 30 bytes in keys, so they share their key with
  others (`Keys.EntryKeyNotInjective`); a keys-only stream shows the padded form
  (`Projection.KeysOnlyIsProjection`).
- *The client's counter* is an int32 that wraps: its numbers stay positive and increasing if and
  only if fewer than 2^31 of them are taken, where closing a URI takes none
  (`Client.NumbersIncreaseExactly`).
- The layout comment at `store/store.go:31-42` starts the entry ID of an entry key at byte 34 and
  ends the fields at 63 and 69; the code puts the ID at bytes 33 to 62 and 39 to 68.

## Model

| member | source | states |
|---|---|---|
| Database.Iterator.Seek | store/store.go:491-499 | seeking lands on the lower bound over the whole database, an empty key meaning the start of the prefix |
| Database.Iterator.Next | store/store.go:541-571 | the next key of the snapshot, whatever its prefix |
| Database.SeekInsideIsUnblocked | store/store.go:496-499 | a seek that is empty or not below the prefix is never stopped by a foreign key |
| Database.BlockedLandsBelow | store/store.go:496-536 | the iterator starts invalid below its own prefix exactly when a foreign key lies between seek key and prefix |
| Database.OffPrefixIsExhausted | store/store.go:530-535 | an invalid iterator means that the snapshot has no more items of the prefix, unless the seek was blocked |
| Keys.KeyspacesPartition | store/store.go:131-137 | the entry and index keyspaces of all channels are pairwise disjoint, and the foreign keys are exactly those in none of them |
| Keys.EntryKeyOrder | store/store.go:311-316 | entry keys coincide and sort exactly as the padded IDs do, so as the IDs themselves at 30 bytes |
| Keys.EntryKeyNotInjective | store/store.go:311-316 | every ID shorter than 30 bytes shares its key with its zero-extended forms, and every longer one with its own first 30 bytes |
| Keys.ArrivalOrder | store/store.go:318-332 | arrival keys sort by second and then by padded ID, for clocks within 48 bits |
| Keys.IndexRoundTrip | store/store.go:311-349 | the entry key and the ID decoded from an arrival key are those of the encoded ID, for every ID length and clock |
| Keys.CopyInto | store/store.go:312-337 | `copy` moves as many bytes as both sides have and leaves all others |
| Store.PutClock | store/store.go:322-328 | the shift and the six byte stores write the low 48 bits of the second count in big-endian order and nothing else |
| Store.ClockBytes | store/store.go:322-328 | the shifted int64, having lost its top bits, still yields the six big-endian bytes of the second count |
| Store.Channel.BuildEntryKey | store/store.go:311-316 | the filled buffer is the entry key |
| Store.Channel.BuildArrivalKey | store/store.go:318-332 | the filled buffer is the arrival key |
| Store.Channel.EntryKeyOf | store/store.go:334-339 | the filled buffer is the entry key that the arrival key decodes to |
| Store.Store.ChannelFor | store/store.go:123-153 | a known channel is returned unchanged, an unknown one is registered, and no other entry of the table moves |
| Store.Store.Get | store/store.go:157-173 | the stored message, or the missing-key error and nothing else |
| Store.Store.Upsert | store/store.go:179-188 | on success the key holds the entry and all other keys are as before; on failure, of encoding, writing or committing, everything is |
| Store.LastKeyIn | store/store.go:231-255 | the reverse scan over every keyspace returns the greatest key of the prefix, nothing exactly for an empty channel |
| Store.Channel.LastKey | store/store.go:231-255 | the same for the channel's entries in the current database |
| Store.Channel.Append | store/store.go:259-301 | entry and index key are added together or not at all; which error is met first; which key is returned beside it |
| StoreRuns.AppendAddsPair | store/store.go:259-301 | a successful append adds one entry key that was not there and one arrival key that decodes to it, to their own keyspaces |
| StoreRuns.EveryRunIsConsistent | store/store.go:259-301 | after any run of appends and foreign upserts, with any failures, the decoder maps each channel's arrival keys one to one onto its entry keys, and entries carry their IDs |
| StoreRuns.UpsertKeepsIndexExactly | store/store.go:175-188 | an upsert keeps index and entries in agreement if and only if its key is foreign or was there before |
| StoreRuns.WriteActsOnFeed | store/store.go:259-301 | failures change nothing, a duplicate ID is refused exactly when the channel has it, success adds just that entry, other channels stay |
| StoreRuns.StoreRefinesFirstWriteWins | store/store.go:259-301 | over every run each channel is the write-once map of the first successful message for each ID |
| StoreRuns.FeedOnlyGrows | store/store.go:273-288 | no later write removes or changes an entry of any channel |
| StoreRuns.UpsertStays | store/store.go:157-188 | what a successful upsert stored is what `Get` finds after any later writes that do not name the key, as no append names a key outside the channels |
| StoreRuns.ErrorsAreTold | store/store.go:259-309 | which error a write reports, in which order: a missing ID, a failure before the lookup, a taken ID, a failure after it; without failures an append succeeds if and only if its ID is there and not taken |
| StoreRuns.ScanIgnoresElsewhere | store/store.go:491-571 | what an iterator yields from a seek inside its prefix does not depend on writes to other channels or to foreign keys |
| StoreRuns.ScanIsIsolatedExactly | store/store.go:491-536 | this isolation holds for all databases and writes if and only if the seek key is empty or not below the prefix |
| StoreRuns.ShortSeekIsAllOrNothing | store/store.go:491-536 | a seek key shorter than the prefix yields all of the prefix when it sorts below it and is not blocked, and nothing otherwise |
| Registry.Channel.Subscribe | store/store.go:366-397 | a target that is registered gets a reset, nil included, and nothing else happens; otherwise one reader of the kind asked for is started under its ID, and nil options end the program |
| Registry.Channel.Unsubscribe | store/store.go:417-421 | the exiting reader's ID leaves the table and nothing else does |
| Registry.TableIsExact | store/store.go:366-421 | in every interleaving the table is exactly the unfinished readers, at most one for a target, and an exit removes only its own entry |
| ReadLoop.Subscriber.Read | store/store.go:468-596 | under every schedule the loop publishes what the step machine publishes and returns exactly when it does |
| ReadLoop.Subscriber.Begin | store/store.go:473-489 | the start position, limit and skipped key of the machine |
| ReadLoop.Subscriber.Iterate | store/store.go:491-575 | one snapshot, walked until its end, the limit, a cancellation or a reset, step for step with the machine |
| ReadLoop.Subscriber.SelectReady | store/store.go:504-528 | each ready case of the inner select does what the machine does, and only the notification stays in the snapshot |
| ReadLoop.Subscriber.SelectReset | store/store.go:509-528 | cursor, limit and dirty flag change, the skipped key only under the original skip-first flag, the count never |
| ReadLoop.Subscriber.SkipItem | store/store.go:537-543 | an item equal to the last key seen is passed over without being counted |
| ReadLoop.Subscriber.ShowItem | store/store.go:544-571 | the item is published in the original mode, counted, and becomes cursor and last key seen |
| ReadLoop.Subscriber.Wait | store/store.go:585-593 | the outer select wakes on a notification or ends on cancellation, and takes no reset |
| ReadLoop.Subscriber.Surround | store/store.go:216-227 | commits to the channel are noticed while the watcher listens and are broadcast as one notification |
| ReaderInvariant.RunKeepsInv | store/store.go:468-596 | an invariant of every run: keys rise without a gap in their snapshots, the iterator lies ahead of the cursor, counts match, unseen commits are announced |
| ReaderInvariant.StepFrame | store/store.go:509-528 | flags and prefix never change, and start, skipped key and limit change only in a reset |
| LiveFeed.LiveFeedIsSortedPrefix | store/store.go:454-596 | with IDs arriving in order and no reset, the published keys are the first ones of the channel's sorted entries from the start position, cut at the limit, without gap or repeat |
| LiveFeed.PublishedExactlyWhenInTime | store/store.go:491-575 | a key that the cursor has passed was published if and only if it was in the snapshot in which the cursor passed it |
| LiveFeed.ResetEpochs | store/store.go:509-543 | between resets keys strictly increase from the seek position inside the channel; at most one key is passed over at the start, and which one; nothing is published at or above the limit in force |
| LiveFeed.RunKeepsSkips | store/store.go:522-526 | each epoch's skipped key is its seek key under skip-first, else the last key seen before it |
| LiveFeed.FirstEpochOptions | store/store.go:473-489 | without resets limit and start stay those subscribed with, but for a start from the head |
| LiveFeed.RunKeepsInitialParts | store/store.go:456-467 | with IDs arriving in order every snapshot used is an initial part of the channel's sorted entries |
| LiveFeed.EpochIsInitialSegment | store/store.go:491-575 | with IDs arriving in order, also after resets, the keys published since the last reset are the first ones of what was to be published from its position on |
| FeedStarts.FeedFromStart | store/store.go:468-596 | with IDs in order and no reset, the published keys are the first ones, within the limit, of what the options ask for at the position taken up on the database of the first move: from a seek key, or from the greatest entry there was, or from the beginning if there was none |
| FeedStarts.QuietFeedFromStart | store/store.go:468-596 | and all of it once the reader is parked with nothing under way to it, under an early watcher |
| FeedStarts.FeedAfterHead | store/store.go:477-489 | a subscription after the head publishes exactly the entries greater than all there were at its start, in order: on an empty channel everything |
| FeedStarts.FeedFromReset | store/store.go:509-528 | after its last reset a reader publishes the first ones, and when quiet all, of what the new options ask for at the position taken up then, within the new limit, which counts everything published before |
| FeedStarts.ResetsAreServedInOrder | store/store.go:450-452 | resets are taken in the order in which they are asked for, and none is lost or made up |
| Progress.Drains | store/store.go:500-573 | undisturbed, a reader publishes everything at hand in its snapshot, in order and as far as its limit goes, and then returns, starts again or parks as count and dirty flag say |
| Progress.ToldReaderLooksAgain | store/store.go:216-225 | a parked reader that is told of commits takes a snapshot with them |
| Progress.CatchesUp | store/store.go:577-595 | from whatever state, while its context is live and no reset waits, a reader with harmless options and its watcher alone can come to where it has returned, or waits with nothing ahead of it that its watcher could have seen |
| Wakeup.NothingMissedUnlessCutOrBlocked | store/store.go:493-593 | a parked reader with nothing under way to it, whose last snapshot no nil reset cut short and whose cursor no key of another keyspace blocks, has no entry ahead of its cursor but those committed before the watcher was registered |
| Wakeup.NoLostWakeup | store/store.go:493-593 | with options and resets that begin inside the channel, a parked reader with nothing under way to it has no entry ahead of its cursor but those committed before the watcher was registered; none at all if it was registered first |
| Wakeup.QuietFeedIsComplete | store/store.go:454-596 | with IDs in order, no reset and options that begin inside the channel, such a reader has published exactly the channel's entries from its start position |
| LostEntries.WakeupNeedsExactly | store/store.go:468-596 | for every kind of options and resets: that no parked reader with nothing under way to it has an entry ahead of it, in any run, holds if and only if the watcher is registered before the reader starts, all resets carry options, and all options begin inside the channel or send nothing |
| LostEntries.LateWatcherLosesEntry | store/store.go:216-227 | a run in which a late watcher leaves a parked reader with an unpublished entry |
| LostEntries.NilResetLosesEntry | store/store.go:509-512 | a run in which a nil reset leaves a parked reader with an unpublished entry, although the watcher was there and the entry committed from the start |
| LostEntries.LowSeekLosesEntry | store/store.go:485-536 | for all options that send something but begin below the channel's prefix, a run in which the reader parks at once before an entry, without any reset and under an early watcher |
| LostEntries.LowResetLosesEntry | store/store.go:513-536 | the same for all such resets |
| Cancellation.CancelledRun | store/store.go:500-532 | after cancellation nothing is published, and the number of further moves is bounded by the backlog whichever ready case is picked |
| Cancellation.CancelledReturns | store/store.go:577-593 | a cancelled reader always has a move to make, and returns within the bound given by its state |
| Cancellation.ReturnsOnlyForAReason | store/store.go:577-593 | a reader returns only when cancelled or at its limit |
| Cancellation.LimitStops | store/store.go:501-503 | at the limit a reader publishes nothing more and returns in two moves, whatever else is ready |
| Projection.StreamShowsEntries | store/store.go:536-571 | in every run there is one message for each key published, in order: the entry as stored, or under keys-only its ID alone |
| Projection.KeysOnlyIsProjection | store/store.go:545-570 | under the same events the keys-only stream is, message by message, the padded IDs of the full stream; the IDs themselves if and only if they have 30 bytes |
| IndexReplay.ReadFromIndex | store/store.go:600-661 | exactly the first arrival keys from the seek position are shown, each with its stored message; how many is fixed by the limit and by what each round of the loop finds; an error exactly at a key without entry |
| IndexReplay.CancelledAt | store/store.go:618-625 | a cancelled replay shows as many keys as it had rounds with nothing ready before the cancellation, within its limit |
| IndexReplay.MessageOf | store/store.go:634-655 | the ID cut from the arrival key, or the message stored under the entry key it decodes to; nothing exactly when a full message is asked for and that is missing |
| IndexReplay.NextInOrder | store/store.go:657 | stepping the iterator moves from each key of the ascending order to the very next one |
| Bookmarks.IndexNeverDangles | store/store.go:638-643 | while index and entries agree, no replay meets a missing entry |
| Bookmarks.FullReplayCoversChannel | store/store.go:598-661 | a replay from the start shows each entry of the channel exactly once and nothing else |
| Bookmarks.AcceptedStays | store/store.go:257-301 | the arrival key that a successful append returned leads to its message after any later writes |
| Bookmarks.BookmarkComesFirst | store/store.go:257-301 | a replay that seeks to a returned arrival key starts with the entry appended then |
| Bookmarks.BookmarkResume | store/store.go:600-661 | which other entries such a replay delivers: if and only if they have a later clock reading, or the same one and a padded ID that is not less |
| Bookmarks.LaterSecondsAreDelivered | store/store.go:598-661 | everything that arrived in a later second is delivered with its message, across any number of appends |
| Bookmarks.SameSecondCanBeMissed | store/store.go:257-332 | two appends in one second where a replay from the first one's bookmark never shows the second |
| Bookmarks.ReplayProjection | store/store.go:634-650 | two replays of one snapshot through the same rounds, keys-only and full: equally long, and message by message the padded ID of the full one, the very ID if and only if it has 30 bytes |
| Server.NewStreamOpts | server/server.go:151-202 | nothing for a request without streaming, else a positive limit, the seek ID unless the mode says where to start by itself, and exactly the flags that mode and request stand for |
| Server.Connection.Open | server/server.go:112-149 | the two refusals; otherwise a stream under the request's ID, a reader or a reset, and a working reply |
| Server.Connection.Subscribe | store/store.go:366-397 | the first stream of a connection on a channel becomes its reader, later ones pass their options on, and nil options without a reader crash |
| Server.Connection.Close | server/server.go:256-276 | the stream under the ID, if any, is cancelled and removed; the reply is the same either way |
| Server.Connection.Done | server/server.go:244-249 | the stream's context is cancelled and its ID leaves the map |
| Server.Connection.Append | server/server.go:279-310 | the three refusals in order, the append, and the key that it returned in the reply |
| Server.Connection.Publish | server/server.go:235-241 | a reader's message goes out under the ID of the stream it was started with |
| Server.Connection.VaultSession | server/server.go:66-102 | the request loop, amid feeds, other writers and exits, does what the session machine does under any schedule |
| SessionRuns.RepliesAnswerRequests | server/server.go:66-102 | one reply for each request, in order, with the request's ID, of the kind the request alone determines |
| SessionRuns.SentReplyAnswers | server/server.go:84-95 | sending the reply leaves none under way: every request so far has then been answered by a message sent, the last one by the last message |
| SessionRuns.AppendIsAnsweredWithBookmark | server/server.go:294-309 | an append that is not refused is answered with the entry's arrival key in the channel of its URI, under which the database then delivers that very entry, and which an open of that URI reads |
| SessionRuns.RefusalsChangeNothing | server/server.go:280-302 | a request answered with an error has changed nothing |
| SessionRuns.OpenCanBeCancelled | server/server.go:134-136 | a cancellation under the ID of an open stops the reader that the open started |
| SessionRuns.NothingAfterEnd | server/server.go:72-83 | after the end of the connection no request is handled |
| SessionRuns.FeedMessagesBelongToOpens | server/server.go:112-149 | each `streams[k]` has the ID k, each reader publishes to a stream of its own channel, and every feed message carries the ID of an earlier accepted open of the channel that its reader reads |
| SessionRuns.StepActsOnTable | store/store.go:366-421 | a step of a session starts, resets or ends its reader exactly as the channel's table has it, and touches no other connection's entry |
| SessionRuns.ReadersAreTableEntries | store/store.go:366-421 | over whole sessions, with other connections coming and going, the session's readers are its part of the channels' tables |
| SessionRuns.CancelIsIdempotent | server/server.go:256-276 | a second cancellation changes nothing and is answered the same way |
| SessionRuns.CancelStopsExactly | server/server.go:244-276 | a cancellation stops a reader if and only if the stream under that ID is the one it was started with, and touches no other |
| SessionRuns.ReopenedStreamDoesNotStop | server/server.go:251-254 | cancelling the second open of a channel leaves its feed running under the first open's ID |
| SessionRuns.CrashesExactly | server/server.go:132-138 | a request crashes the server if and only if it opens, without streaming, a channel that the connection does not read |
| SessionRuns.NilResetExactly | server/server.go:132-138 | a request hands a reader a nil reset if and only if it opens, without streaming, a channel that the connection does read |
| Client.Client.Send | client/client.go:72-78 | the request goes out under the next number |
| Client.Client.OpenURI | client/client.go:82-97 | an open with fixed options goes out under the next number, which the table then holds |
| Client.Client.CloseURI | client/client.go:100-111 | a cancellation of the number in the table, or an error and nothing sent; the table keeps the URI |
| Client.NumbersNeverRepeat | client/client.go:72-97 | below 2^31 numbered calls the numbers strictly increase and the table leads one to one from each URI to its latest open |
| Client.NumbersIncreaseExactly | client/client.go:72-111 | the numbers sent are positive and increasing if and only if fewer than 2^31 were taken |
| Client.SentAsGiven | client/client.go:72-78 | what is sent is the request given, whatever its kind and payload, under the next number |
| Client.OpensFromHead | client/client.go:82-97 | opening a URI asks for everything after the head of that URI's channel, whole entries, without limit, as the server reads it |
| Client.CloseCancelsLatest | client/client.go:100-111 | closing a URI that was opened sends one request, the cancellation of its latest open, and closing another sends none |
| StreamOptions.TailIsNoLimit | store/store.go:77 | no limit is above the tail |
| Timestamps.FractionIsClose | helpers/func.go:52-57 | neither the 32-bit product nor the 16-bit result overflows, and the fraction is at most two steps below the exact one |
| Timestamps.FractionOrder | helpers/func.go:52-57 | the fraction never runs backwards within a second, and tells apart readings 16384 nanoseconds apart |
| Timestamps.NewEntryID | helpers/func.go:36-50 | the eight byte stores are the big-endian timestamp, followed by the random bytes |
| Timestamps.IDsSortByTime | helpers/func.go:36-57 | IDs sort by time: by second, and within a second by readings 16384 nanoseconds apart, whatever the suffix |
| Guarantees.MissedEntriesAreReplayed | store/store.go:598-661 | an entry that the live feed passed without publishing was committed too late for the snapshot, and a replay of the index comes to it |
| Guarantees.FromHeadOnlyNewerEntries | store/store.go:477-489 | a subscription after the head publishes only entries greater than every entry present at its start; which of them, `FeedStarts.FeedAfterHead` says |
| Guarantees.EntryModesMissTheirEntry | server/server.go:154-197 | an AtEntry or AfterEntry request finds the whole channel or nothing, by the order of its ID and the prefix; so what it was promised if and only if all entries of the channel, or none of them, are after the named one or, under AtEntry, the named one |
| Guarantees.EntryModesStream | server/server.go:154-197 | with IDs in order its stream is the channel's first entries when the ID sorts below the prefix, and empty otherwise |
| Guarantees.LimitAcrossLayers | server/server.go:185-200 | a live reader that was never reset sends no more messages than its request allows, whatever number the request gives, and once it has sent them it returns |
| Guarantees.LimitOnReplay | store/store.go:615-617 | an index replay sends no more messages than its request allows |
| Guarantees.IndexModeIgnoresBookmark | server/server.go:176-178 | a FromIndex request shows the whole index, and so what its bookmark promised if and only if nothing in the index sorts below the bookmark |
| Guarantees.IndexModeRepeats | server/server.go:176-178 | a client that goes on from its bookmark gets every entry that arrived in an earlier second again, which a replay from the bookmark would not show |
| Guarantees.IndexModeRepeatsFirst | server/server.go:176-178 | two appends after which this happens |
| Guarantees.CloseRemovesOwnStream | client/client.go:100-111 | when the session handles the very request that closing a URI sends, the stream that it cancels and removes is the one of the client's latest open of that URI, for its channel, and all others stay |
| Guarantees.NewIDsArriveInOrder | helpers/func.go:36-57 | appending an entry with a fresh ID from a clock that has moved on is the increasing order that the feed guarantees ask for |
| VaultRuns.RunKeepsVault | server/server.go:66-149 | in every run of a connection each live reader has come by a run of the reader machine from a new subscription with the database and the watcher of that moment to the shared database; each replay shows, from a snapshot with all that was there at its start, the first arrival keys in order, and when it is done and was not cancelled, as many as its limit allows; both have the options of the request that opened their stream, and are stopped if and only if the stream is cancelled or the connection has ended |
| VaultRuns.RenderedIsMessage | store/store.go:544-571 | what a reader publishes for a key is the message stored under it, or its ID alone |
| VaultRuns.FeedMessagesAreEntries | server/server.go:112-241 | every feed message is the entry that the database holds under a key of its channel, whole or as its ID alone as asked for by the request whose ID it carries |
| VaultRuns.RunIsSessionRun | server/server.go:66-102 | a run of the whole is a run of the session, so the session's guarantees hold of it |
| VaultRuns.CancelledStreamIsSilent | server/server.go:244-249 | once a stream is cancelled no message comes from it any more, whatever happens |
| VaultRuns.CancellationSilences | server/server.go:256-276 | from the moment a cancellation is handled the stream it named sends nothing, even if its ID is opened again |
| StreamRuns.StreamsCarryReaders | server/server.go:235-241 | the messages heard from a stream with a reader are exactly what that reader has published; the resets that a live reader was asked for are exactly those noted for its channel since its start, each asked for by a request of this connection |
| StreamRuns.OpenStartsReader | server/server.go:132-138 | an accepted open of a channel that the connection does not read puts a new stream under its ID and starts a reader on it, an index replay if and only if the mode is FromIndex, with the options asked for, on the database as it is |
| StreamRuns.ExitFreesChannel | store/store.go:417-421 | a reader that has returned can leave, and takes nothing with it but itself |
| StreamRuns.RegisteredWatches | store/store.go:216-227 | a watcher that takes effect is there for the present reader and for all that start later |
| StreamRuns.FirstFeed | server/server.go:112-149 | the first open of a connection for a live mode begins a feed that the following guarantees cover |
| StreamRuns.FeedIsSortedPrefix | server/server.go:112-241 | with IDs in order and the channel opened once, a client hears under that open's ID the first of the entries that it asked for, from its seek key or from the head that the channel had at some moment since the open, in order, without gap or repeat, in the form and number it asked for |
| StreamRuns.FeedIsComplete | server/server.go:112-241 | and all of them once the reader waits with nothing under way to it, under an early watcher and options that begin inside the channel |
| StreamRuns.HeardAfterHead | server/server.go:112-241 | under an open after the head a client hears exactly the entries greater than all that the channel had at that moment, in order, on an empty channel all of them; and none is missing once the reader waits with nothing under way to it |
| StreamRuns.ReplayIsHeardWhole | store/store.go:598-661 | once a replay is done without cancellation, and within its limit, the client has heard under the open's ID each entry of its snapshot exactly once, in order of arrival, and the snapshot has everything that was there at the open |
| StreamRuns.ReplayMovesOn | store/store.go:614-659 | a replay that is let run publishes one entry after the other as far as its limit goes, and then is done |
| StreamRuns.FeedNeverSleeps | server/server.go:112-149 | in any order of IDs and however often the channel is opened, a waiting reader has nothing ahead of it as long as every open asked for streaming from inside the channel |
| StreamRuns.StreamWithinLimit | server/server.go:185-241 | under the ID of a channel's only open a client hears no more messages than that open allowed, live or from the index |
| StreamRuns.ReopenedStreamIsSilent | server/server.go:132-138 | a stream opened while the connection has a reader on its channel is never the source of any message, even once that reader is cancelled |

## Left out

- Database internals: badger is an ordered map with frozen snapshots and atomic updates; its own `!badger!` keys, table pruning by prefix, buffer reuse by iterators and read errors inside iterations are not modelled. Failures of marshalling, `Get`, `SetEntry` and commit in a write are (`Fault`).
- Protobuf encoding: a stored message is a value that unmarshalling returns unchanged; the empty value of an index key decodes to the empty message.
- SHA-256: the map from URIs to channel IDs is a parameter; no theorem assumes that it is injective.
- Clocks and random bytes: second counts, nanoseconds and ID suffixes are inputs. The `|` that joins seconds and fraction is an addition, as the shift leaves 16 zero bits.
- Locks and blocking: `notify` and `reset` send on unbuffered channels while a lock is held, so callers can wait for each other. A blocked send appears here as an offered notification or a waiting reset; deadlock is not treated: `Progress` and `Cancellation` say what a reader and its watcher come to when they are let run, not that they are.
- More than one waiting notification: the watcher blocks on the first, so later commits stay queued with it. Several waiting resets are allowed although `Subscribe` can have only one in hand.
- Sends that fail: the session and the reader carry on, as in the code, and the model counts the message as sent. Two goroutines sending at the same time are interleaved message by message.
- ReadLoop.Subscriber.Read: the state between two scheduling points of the loop is not visible to others; commits take effect only at scheduling points, which is where a snapshot is taken and a channel is looked at.
- IndexReplay.ReadFromIndex: resets sent to an index reader wait forever in the code, which never receives them; they have no effect in the model either.
- Server.Connection.Publish: says only which reader sends under which ID; what a reader publishes is proved of `Vault`, the whole on values, and not of the connection object.
- Registry.Channel.Subscribe: the entry that is in the table for a moment before nil options end the program is not shown.
- Cancellation.CancelledRun: a select and the publication that follows it are one move, so an item chosen just before the cancellation counts as sent before it, while the code may send it just after.
- VaultRuns.RunKeepsVault: one connection; others appear through their writes. The watcher's broadcast is queued for each reader on its own.
- LiveFeed.LiveFeedIsSortedPrefix: needs IDs in increasing order, as the reader never goes back; what is missed otherwise is told exactly by `LiveFeed.PublishedExactlyWhenInTime`.
- Store.Store.ChannelFor: announcing a new channel for discovery on `updateCh` is left out, and starting the watcher is the event `Register` of the reader's machine.
- The p2p host, the keyring, configuration, metrics, logging, TLS and the gRPC transport. Of the host only its 2-byte snapshot key remains, as a foreign key that `Upsert` writes.

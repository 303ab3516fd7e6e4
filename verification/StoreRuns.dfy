/** Properties of whole runs of the store: the index agrees with the entries, every channel is a
    write-once map that only grows, and channels do not disturb each other. */
module StoreRuns {
  import opened ByteStrings
  import opened Database
  import opened Keys
  import opened Messages
  import opened Transactions

  // ---------- The index agrees with the entries ----------

  predicate IsArrival(c: ChannelID, a: Bytes) {
    IndexPrefix(c) <= a && |a| == ARRIVAL_KEY_SIZE
  }

  ghost predicate ArrivalsPointToEntries(db: Snapshot, c: ChannelID) {
    forall a :: a in db && IndexPrefix(c) <= a ==> IsArrival(c, a) && EntryKeyFromIndex(c, a) in db
  }

  ghost predicate ArrivalsAreInjective(db: Snapshot, c: ChannelID) {
    forall a, b :: a in db && b in db && IsArrival(c, a) && IsArrival(c, b)
      && EntryKeyFromIndex(c, a) == EntryKeyFromIndex(c, b)
      ==> a == b
  }

  ghost predicate HasArrival(db: Snapshot, c: ChannelID, k: Bytes) {
    exists a :: a in db && IsArrival(c, a) && EntryKeyFromIndex(c, a) == k
  }

  ghost predicate EntriesHaveArrivals(db: Snapshot, c: ChannelID) {
    forall k :: k in db && EntryPrefix(c) <= k ==> |k| == ENTRY_KEY_SIZE && HasArrival(db, c, k)
  }

  /** `EntryKeyFromIndex` maps the channel's arrival keys one to one onto its entry keys. */
  ghost predicate IndexAgrees(db: Snapshot, c: ChannelID) {
    ArrivalsPointToEntries(db, c) && ArrivalsAreInjective(db, c) && EntriesHaveArrivals(db, c)
  }

  ghost predicate IndexesAgree(db: Snapshot) {
    forall c: ChannelID :: IndexAgrees(db, c)
  }

  /** Under an entry key lies a message with the ID that the key was made from. */
  ghost predicate EntriesCarryIDs(db: Snapshot, c: ChannelID) {
    forall k :: k in db && EntryPrefix(c) <= k ==>
      db[k].Stored? && EntryID(db[k].msg).Some? && k == EntryKey(c, EntryID(db[k].msg).value)
  }

  ghost predicate Consistent(db: Snapshot) {
    forall c: ChannelID :: IndexAgrees(db, c) && EntriesCarryIDs(db, c)
  }

  lemma ArrivalSurvives(db: Snapshot, db': Snapshot, c: ChannelID, k: Bytes)
    requires db.Keys <= db'.Keys && HasArrival(db, c, k)
    ensures HasArrival(db', c, k)
  {
    var a :| a in db && IsArrival(c, a) && EntryKeyFromIndex(c, a) == k;
    assert a in db';
  }

  /** What an append adds: one entry key and one arrival key that decodes to it. */
  lemma AppendAddsPair(db: Snapshot, op: Op)
    requires op.Append? && Outcome(db, op).None?
    ensures var c, id := op.channel, EntryID(op.entry).value;
            var key, arrival := EntryKey(c, id), ArrivalKey(c, id, op.seconds);
            && Apply(db, op).Keys == db.Keys + {key, arrival} && key !in db
            && EntryPrefix(c) <= key && !(IndexPrefix(c) <= key) && |key| == ENTRY_KEY_SIZE
            && IsArrival(c, arrival) && !(EntryPrefix(c) <= arrival) && EntryKeyFromIndex(c, arrival) == key
  {
    var c, id := op.channel, EntryID(op.entry).value;
    IndexRoundTrip(c, id, op.seconds);
    KeyspacesPartition(EntryKey(c, id));
    KeyspacesPartition(ArrivalKey(c, id, op.seconds));
  }

  lemma AppendKeepsOwnIndex(db: Snapshot, op: Op)
    requires op.Append? && Outcome(db, op).None? && IndexAgrees(db, op.channel)
    ensures IndexAgrees(Apply(db, op), op.channel)
  {
    var c, id, db' := op.channel, EntryID(op.entry).value, Apply(db, op);
    var key, arrival := EntryKey(c, id), ArrivalKey(c, id, op.seconds);
    AppendAddsPair(db, op);
    hide Apply, Outcome, EntryKey, ArrivalKey, EntryPrefix, IndexPrefix;
    assert ArrivalsPointToEntries(db', c);
    assert ArrivalsAreInjective(db', c);
    forall k | k in db' && EntryPrefix(c) <= k ensures |k| == ENTRY_KEY_SIZE && HasArrival(db', c, k) {
      if k == key {
        assert arrival in db' && IsArrival(c, arrival);
      } else {
        ArrivalSurvives(db, db', c, k);
      }
    }
  }

  lemma AppendKeepsOwnEntries(db: Snapshot, op: Op)
    requires op.Append? && Outcome(db, op).None? && EntriesCarryIDs(db, op.channel)
    ensures EntriesCarryIDs(Apply(db, op), op.channel)
  {
    var c, id := op.channel, EntryID(op.entry).value;
    IndexRoundTrip(c, id, op.seconds);
    KeyspacesPartition(ArrivalKey(c, id, op.seconds));
  }

  lemma ElsewhereKeepsChannel(db: Snapshot, op: Op, c: ChannelID)
    requires Elsewhere(op, c)
    requires IndexAgrees(db, c) && EntriesCarryIDs(db, c)
    ensures IndexAgrees(Apply(db, op), c) && EntriesCarryIDs(Apply(db, op), c)
  {
    SameChannelKeys(db, op, c);
    forall k | k in db && EntryPrefix(c) <= k ensures HasArrival(Apply(db, op), c, k) {
      ArrivalSurvives(db, Apply(db, op), c, k);
    }
    assert forall a :: IndexPrefix(c) <= a && |a| >= 39 ==> EntryPrefix(c) <= EntryKeyFromIndex(c, a);
  }

  lemma StepKeepsConsistent(db: Snapshot, op: Op)
    requires Consistent(db) && Lawful(op)
    ensures Consistent(Apply(db, op))
  {
    forall c: ChannelID ensures IndexAgrees(Apply(db, op), c) && EntriesCarryIDs(Apply(db, op), c) {
      if op.Append? && op.channel == c {
        if Outcome(db, op).None? {
          AppendKeepsOwnIndex(db, op);
          AppendKeepsOwnEntries(db, op);
        }
      } else {
        if op.Upsert? {
          KeyspacesPartition(op.key);
        }
        ElsewhereKeepsChannel(db, op, c);
      }
    }
  }

  /** After every run of appends on any channels, with any faults, duplicates, ID lengths and
      clock readings, and of upserts of foreign keys, index and entries agree everywhere. */
  lemma {:induction false} EveryRunIsConsistent(ops: seq<Op>)
    requires AllLawful(ops)
    ensures Consistent(ApplyAll(map[], ops))
  {
    if ops == [] {
    } else {
      var n := |ops| - 1;
      EveryRunIsConsistent(ops[..n]);
      StepKeepsConsistent(ApplyAll(map[], ops[..n]), ops[n]);
    }
  }

  /** A successful `Upsert` keeps index and entries in agreement exactly when its key lies
      outside the channels or was there before. */
  lemma UpsertKeepsIndexExactly(db: Snapshot, key: Bytes, entry: Msg)
    requires IndexesAgree(db)
    ensures IndexesAgree(db[key := Stored(entry)]) <==> Foreign(key) || key in db
  {
    var db' := db[key := Stored(entry)];
    KeyspacesPartition(key);
    if Foreign(key) || key in db {
      forall c: ChannelID ensures IndexAgrees(db', c) {
        assert IndexAgrees(db, c);
        forall k | k in db' && EntryPrefix(c) <= k ensures HasArrival(db', c, k) {
          ArrivalSurvives(db, db', c, k);
        }
      }
    } else {
      var c: ChannelID := key[..32];
      assert IndexAgrees(db, c);
      UnindexedKeyBreaks(db, c, key, Stored(entry));
    }
  }

  lemma UnindexedKeyBreaks(db: Snapshot, c: ChannelID, key: Bytes, v: Value)
    requires IndexAgrees(db, c) && key !in db
    requires EntryPrefix(c) <= key || IndexPrefix(c) <= key
    ensures !IndexAgrees(db[key := v], c)
  {
    var db' := db[key := v];
    KeyspacesPartition(key);
    if EntryPrefix(c) <= key {
      assert !HasArrival(db', c, key);
    } else if IsArrival(c, key) && EntryKeyFromIndex(c, key) in db' {
      var k := EntryKeyFromIndex(c, key);
      assert EntryPrefix(c) <= k && HasArrival(db, c, k);
      var a :| a in db && IsArrival(c, a) && EntryKeyFromIndex(c, a) == k;
      assert a in db' && key in db' && a != key;
    }
  }

  // ---------- Every channel is a write-once map ----------

  function FeedIDs(db: Snapshot, c: ChannelID): (ids: set<Bytes>)
    ensures forall id :: id in ids <==> EntryPrefix(c) + id in db
  {
    var ids := set k | k in db && EntryPrefix(c) <= k :: EntryIDFromKey(k);
    assert forall k :: k in db && EntryPrefix(c) <= k ==> k == EntryPrefix(c) + EntryIDFromKey(k);
    assert forall id :: EntryIDFromKey(EntryPrefix(c) + id) == id;
    ids
  }

  /** A channel as its readers know it: padded entry IDs and the messages under them. */
  function Feed(db: Snapshot, c: ChannelID): map<Bytes, Msg> {
    map id | id in FeedIDs(db, c) :: Unmarshal(db[EntryPrefix(c) + id])
  }

  /** The channel's contents told without keys or bytes: of the fault-free appends with an ID,
      the first one for each padded ID wins and stays. */
  function FirstWriteWins(ops: seq<Op>, c: ChannelID): map<Bytes, Msg> {
    if ops == [] then map[]
    else
      var n := |ops| - 1;
      var feed := FirstWriteWins(ops[..n], c);
      if ops[n].Append? && ops[n].channel == c && EntryID(ops[n].entry).Some? && ops[n].fault == NoFault
         && Pad(EntryID(ops[n].entry).value) !in feed
      then feed[Pad(EntryID(ops[n].entry).value) := ops[n].entry]
      else feed
  }

  /** Each write acts on the write-once maps: a failed append changes nothing at all, a
      successful one adds exactly its entry to its channel together with the index key, a
      duplicate is refused, and everything else leaves the channel alone. */
  lemma {:induction false} WriteActsOnFeed(db: Snapshot, op: Op, c: ChannelID)
    requires Lawful(op)
    ensures Outcome(db, op).Some? ==> Apply(db, op) == db
    ensures op.Append? && EntryID(op.entry).Some? && op.fault != MarshalFault && op.fault != GetFault ==>
              (Outcome(db, op) == Some(KeyExists) <==>
                Pad(EntryID(op.entry).value) in Feed(db, op.channel))
    ensures op.Append? && Outcome(db, op).None? ==>
              && Pad(EntryID(op.entry).value) !in Feed(db, op.channel)
              && ReturnedKey(op).Some? && ReturnedKey(op).value in Apply(db, op)
              && Feed(Apply(db, op), op.channel) ==
                 Feed(db, op.channel)[Pad(EntryID(op.entry).value) := op.entry]
    ensures op.Upsert? || op.channel != c ==> Feed(Apply(db, op), c) == Feed(db, c)
  {
    if op.Append? && EntryID(op.entry).Some? {
      if Outcome(db, op).None? {
        AppendExtendsFeed(db, op);
      }
    }
    if op.Upsert? || op.channel != c {
      if op.Upsert? {
        KeyspacesPartition(op.key);
      }
      hide Feed, Apply, Outcome;
      ElsewhereKeepsFeed(db, op, c);
    }
  }

  /** Among the keys that an append writes, only the entry key belongs to an ID, and to one only. */
  lemma WrittenKeyOfID(c: ChannelID, id: Bytes, seconds: Seconds, i: Bytes)
    ensures EntryPrefix(c) + i == EntryKey(c, id) <==> i == Pad(id)
    ensures EntryPrefix(c) + i != ArrivalKey(c, id, seconds)
  {
    KeyspacesPartition(ArrivalKey(c, id, seconds));
    IndexRoundTrip(c, id, seconds);
    assert EntryPrefix(c) <= EntryPrefix(c) + i;
    assert (EntryPrefix(c) + i)[PREFIX_SIZE..] == i && EntryKey(c, id)[PREFIX_SIZE..] == Pad(id);
  }

  lemma AppendExtendsFeed(db: Snapshot, op: Op)
    requires op.Append? && Outcome(db, op).None?
    ensures Feed(Apply(db, op), op.channel) == Feed(db, op.channel)[Pad(EntryID(op.entry).value) := op.entry]
  {
    var c, id, db' := op.channel, EntryID(op.entry).value, Apply(db, op);
    assert db' == db[EntryKey(c, id) := Stored(op.entry)][ArrivalKey(c, id, op.seconds) := Nothing];
    assert EntryPrefix(c) + Pad(id) == EntryKey(c, id);
    hide Apply, Outcome, EntryKey, ArrivalKey, EntryPrefix, Pad;
    forall i ensures EntryPrefix(c) + i in db' <==> EntryPrefix(c) + i in db || i == Pad(id) {
      WrittenKeyOfID(c, id, op.seconds, i);
    }
    forall i | EntryPrefix(c) + i in db'
      ensures db'[EntryPrefix(c) + i] == if i == Pad(id) then Stored(op.entry) else db[EntryPrefix(c) + i]
    {
      WrittenKeyOfID(c, id, op.seconds, i);
    }
  }

  lemma ElsewhereKeepsFeed(db: Snapshot, op: Op, c: ChannelID)
    requires Elsewhere(op, c)
    ensures Feed(Apply(db, op), c) == Feed(db, c)
  {
    SameChannelKeys(db, op, c);
    assert forall i :: EntryPrefix(c) <= EntryPrefix(c) + i;
    hide Apply, Elsewhere;
  }

  /** The store refines the write-once maps over every run. */
  lemma {:induction false} StoreRefinesFirstWriteWins(ops: seq<Op>, c: ChannelID)
    requires AllLawful(ops)
    ensures Feed(ApplyAll(map[], ops), c) == FirstWriteWins(ops, c)
  {
    if ops == [] {
    } else {
      var n := |ops| - 1;
      var db, op := ApplyAll(map[], ops[..n]), ops[n];
      StoreRefinesFirstWriteWins(ops[..n], c);
      WriteActsOnFeed(db, op, c);
    }
  }

  /** Nothing that a channel ever held is lost or changed by what follows. */
  lemma {:induction false} FeedOnlyGrows(db: Snapshot, ops: seq<Op>, c: ChannelID)
    requires AllLawful(ops)
    ensures forall id :: id in Feed(db, c) ==>
              id in Feed(ApplyAll(db, ops), c) && Feed(ApplyAll(db, ops), c)[id] == Feed(db, c)[id]
    ensures db.Keys <= ApplyAll(db, ops).Keys
  {
    if ops == [] {
    } else {
      var n := |ops| - 1;
      FeedOnlyGrows(db, ops[..n], c);
      WriteActsOnFeed(ApplyAll(db, ops[..n]), ops[n], c);
    }
  }

  // ---------- Raw keys ----------

  /** The write does not name the key. */
  predicate Spares(op: Op, key: Bytes) {
    match op
    case Upsert(k, _, _) => k != key
    case Append(c, entry, seconds, _) =>
      EntryID(entry).Some? ==> key != EntryKey(c, EntryID(entry).value) && key != ArrivalKey(c, EntryID(entry).value, seconds)
  }

  /** What a successful upsert stored is what `Get` finds after any later writes that do not name
      the key; appends never name a key outside the channels. */
  lemma {:induction false} UpsertStays(db: Snapshot, key: Bytes, entry: Msg, fault: Fault, ops: seq<Op>)
    requires Outcome(db, Op.Upsert(key, entry, fault)).None?
    requires forall i :: 0 <= i < |ops| ==> Spares(ops[i], key) || (Foreign(key) && ops[i].Append?)
    ensures var db' := ApplyAll(Apply(db, Op.Upsert(key, entry, fault)), ops);
            key in db' && Unmarshal(db'[key]) == entry
  {
    if ops == [] {
    } else {
      var n := |ops| - 1;
      UpsertStays(db, key, entry, fault, ops[..n]);
      SparedStays(ApplyAll(Apply(db, Op.Upsert(key, entry, fault)), ops[..n]), ops[n], key);
    }
  }

  lemma SparedStays(db: Snapshot, op: Op, key: Bytes)
    requires key in db && (Spares(op, key) || (Foreign(key) && op.Append?))
    ensures key in Apply(db, op) && Apply(db, op)[key] == db[key]
  {
    if op.Append? && EntryID(op.entry).Some? {
      var c, id := op.channel, EntryID(op.entry).value;
      IndexRoundTrip(c, id, op.seconds);
      KeyspacesPartition(EntryKey(c, id));
      KeyspacesPartition(ArrivalKey(c, id, op.seconds));
      hide EntryKey, ArrivalKey;
    }
  }

  // ---------- Errors ----------

  /** Which error a write reports: a missing ID, before anything else; a taken ID, unless encoding or
      reading failed before; or the failure that happened. */
  lemma ErrorsAreTold(db: Snapshot, op: Op)
    ensures Outcome(db, op) == Some(InvalidEntryID) <==> op.Append? && EntryID(op.entry).None?
    ensures Outcome(db, op) == Some(KeyExists) <==>
              && op.Append? && EntryID(op.entry).Some? && op.fault != MarshalFault && op.fault != GetFault
              && EntryKey(op.channel, EntryID(op.entry).value) in db
    ensures forall f :: Outcome(db, op) == Some(Failed(f)) ==> f == op.fault != NoFault
    ensures Outcome(db, op) != Some(KeyNotFound)
    ensures op.fault == NoFault ==>
              (Outcome(db, op).None? <==>
                op.Upsert? || (EntryID(op.entry).Some? && EntryKey(op.channel, EntryID(op.entry).value) !in db))
  {
  }

  // ---------- Channels are isolated ----------

  /** The write names another channel, or a raw key outside both keyspaces of `c`. */
  predicate Elsewhere(op: Op, c: ChannelID) {
    match op
    case Append(d, _, _, _) => d != c
    case Upsert(key, _, _) => !(EntryPrefix(c) <= key) && !(IndexPrefix(c) <= key)
  }

  lemma SameChannelKeys(db: Snapshot, op: Op, c: ChannelID)
    requires Elsewhere(op, c)
    ensures forall k :: EntryPrefix(c) <= k || IndexPrefix(c) <= k ==>
              (k in Apply(db, op) <==> k in db) && (k in db ==> Apply(db, op)[k] == db[k])
  {
    if op.Append? && Outcome(db, op).None? {
      var id := EntryID(op.entry).value;
      var key, arrival := EntryKey(op.channel, id), ArrivalKey(op.channel, id, op.seconds);
      KeyspacesPartition(key);
      KeyspacesPartition(arrival);
      assert EntryPrefix(op.channel) <= key && IndexPrefix(op.channel) <= arrival;
    }
  }

  /** Everything an iterator over `prefix` yields after `Seek(seek)`. */
  ghost function Scan(keys: set<Bytes>, seek: Bytes, prefix: Bytes): seq<Bytes> {
    if Blocked(keys, seek, prefix) then [] else Ascending(InRange(keys, seek, prefix))
  }

  /** A scan that starts at or after its own prefix sees nothing of writes made elsewhere. */
  lemma ScanIgnoresElsewhere(db: Snapshot, op: Op, c: ChannelID, seek: Bytes, prefix: Bytes)
    requires prefix == EntryPrefix(c) || prefix == IndexPrefix(c)
    requires Elsewhere(op, c) && (seek == [] || !Less(seek, prefix))
    ensures Scan(Apply(db, op).Keys, seek, prefix) == Scan(db.Keys, seek, prefix)
  {
    SameChannelKeys(db, op, c);
    SeekInsideIsUnblocked(db.Keys, seek, prefix);
    SeekInsideIsUnblocked(Apply(db, op).Keys, seek, prefix);
    assert InRange(Apply(db, op).Keys, seek, prefix) == InRange(db.Keys, seek, prefix);
  }

  /** No write elsewhere can change what a scan yields if, and only if, the scan's seek key is
      empty or not below the channel's own prefix: a lower one can be blocked from outside. */
  lemma {:induction false} ScanIsIsolatedExactly(c: ChannelID, seek: Bytes)
    ensures (forall db: Snapshot, op: Op | Elsewhere(op, c) ::
               Scan(Apply(db, op).Keys, seek, EntryPrefix(c)) == Scan(db.Keys, seek, EntryPrefix(c)))
            <==> seek == [] || !Less(seek, EntryPrefix(c))
  {
    var prefix := EntryPrefix(c);
    if seek == [] || !Less(seek, prefix) {
      forall db: Snapshot, op: Op | Elsewhere(op, c)
        ensures Scan(Apply(db, op).Keys, seek, prefix) == Scan(db.Keys, seek, prefix)
      {
        ScanIgnoresElsewhere(db, op, c, seek, prefix);
      }
    } else {
      BlockedFromOutside(c, seek);
    }
  }

  /** A seek key shorter than the prefix starts nowhere inside it: the scan is all of the prefix, or
      nothing when the seek key sorts above it or is blocked. */
  lemma {:induction false} ShortSeekIsAllOrNothing(keys: set<Bytes>, seek: Bytes, prefix: Bytes)
    requires 0 < |seek| < |prefix|
    ensures InRange(keys, seek, prefix) == if Less(seek, prefix) then Matching(keys, prefix) else {}
    ensures Scan(keys, seek, prefix) ==
            if Less(seek, prefix) && !Blocked(keys, seek, prefix) then Ascending(Matching(keys, prefix)) else []
  {
    LessTotal(seek, prefix);
    forall k | k in Matching(keys, prefix) ensures AtMost(seek, k) <==> Less(seek, prefix) {
      PrefixAtMost(prefix, k);
      if Less(seek, prefix) {
        if prefix != k { LessTransitive(seek, prefix, k); }
      } else if AtMost(seek, k) {
        PrefixConvex(prefix, prefix, seek, k);
      }
    }
    AscendingEnumerates({});
  }

  lemma BlockedFromOutside(c: ChannelID, seek: Bytes)
    requires seek != [] && Less(seek, EntryPrefix(c))
    ensures exists db: Snapshot, op: Op :: Elsewhere(op, c)
              && Scan(Apply(db, op).Keys, seek, EntryPrefix(c)) != Scan(db.Keys, seek, EntryPrefix(c))
  {
    var prefix, key := EntryPrefix(c), EntryKey(c, []);
    var db: Snapshot := map[key := Stored(EMPTY_MSG)];
    var op := Op.Upsert(seek, EMPTY_MSG, NoFault);
    StrictTotalOrder();
    assert prefix <= key;
    PrefixAtMost(prefix, key);
    assert IndexPrefix(c) <= seek ==> AtMost(IndexPrefix(c), seek) by {
      if IndexPrefix(c) <= seek { PrefixAtMost(IndexPrefix(c), seek); }
    }
    assert EntryPrefix(c) <= seek ==> AtMost(EntryPrefix(c), seek) by {
      if EntryPrefix(c) <= seek { PrefixAtMost(EntryPrefix(c), seek); }
    }
    CommonPrefix(c, [KEYSPACE_ENTRIES], [KEYSPACE_ARRIVAL]);
    assert Elsewhere(op, c);
    assert key in InRange(db.Keys, seek, prefix);
    assert !Blocked(db.Keys, seek, prefix);
    assert seek in Apply(db, op).Keys;
    assert Blocked(Apply(db, op).Keys, seek, prefix);
    AscendingEnumerates(InRange(db.Keys, seek, prefix));
  }
}

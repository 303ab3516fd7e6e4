/** The store and its channels as objects over one database. */
module Store {
  import opened ByteStrings
  import opened Database
  import opened Keys
  import opened Messages
  import opened Transactions

  datatype Result<T> = Ok(value: T) | Err(error: Error)

  class Store {
    var db: Snapshot
    var channels: map<ChannelID, Channel>

    ghost predicate Valid()
      reads this, channels.Values
    {
      forall id :: id in channels ==> channels[id].id == id && channels[id].store == this && channels[id].Valid()
    }

    constructor ()
      ensures Valid() && db == map[] && channels == map[]
    {
      db, channels := map[], map[];
    }

    /** Returns the channel registered under `id`, creating it on first use. */
    method ChannelFor(id: ChannelID) returns (channel: Channel)
      requires Valid()
      modifies this`channels
      ensures Valid()
      ensures id in channels && channels[id] == channel
      ensures id in old(channels) ==> channels == old(channels)
      ensures id !in old(channels) ==> fresh(channel) && channels == old(channels)[id := channel]
    {
      if id in channels {
        return channels[id];
      }
      channel := new Channel(id, this);
      channels := channels[id := channel];
    }

    method Get(key: Bytes) returns (r: Result<Msg>)
      ensures r == if key in db then Ok(Unmarshal(db[key])) else Err(KeyNotFound)
    {
      if key !in db {
        return Err(KeyNotFound);
      }
      r := Ok(Unmarshal(db[key]));
    }

    method Upsert(key: Bytes, entry: Msg, fault: Fault) returns (err: Option<Error>)
      modifies this`db
      ensures db == Apply(old(db), Op.Upsert(key, entry, fault))
      ensures err == Outcome(old(db), Op.Upsert(key, entry, fault))
      ensures db == if err.None? then old(db)[key := Stored(entry)] else old(db)
      ensures err.Some? <==> fault in {MarshalFault, SetEntryFault, CommitFault}
    {
      if fault == MarshalFault {
        return Some(Failed(fault));
      }
      var txn := db;
      if fault == SetEntryFault {
        return Some(Failed(fault));
      }
      txn := txn[key := Stored(entry)];
      if fault == CommitFault {
        return Some(Failed(fault));
      }
      db := txn;
      err := None;
    }
  }

  /** Shifts the clock by 16 bits and writes bytes 33 to 38 of an arrival key from it. */
  method PutClock(k: array<Byte>, seconds: Seconds)
    requires k.Length == ARRIVAL_KEY_SIZE
    modifies k
    ensures k[..] == old(k[..])[..33] + BigEndian(6, seconds) + old(k[..])[39..]
  {
    var ts := Int64(seconds * 0x1_0000);
    k[33] := (ts / 0x100_0000_0000_0000) % 256;
    k[34] := (ts / 0x1_0000_0000_0000) % 256;
    k[35] := (ts / 0x100_0000_0000) % 256;
    k[36] := (ts / 0x1_0000_0000) % 256;
    k[37] := (ts / 0x100_0000) % 256;
    k[38] := (ts / 0x1_0000) % 256;
    ClockBytes(seconds);
    assert k[33..39] == BigEndian(6, seconds);
    assert k[..] == k[..33] + k[33..39] + k[39..];
  }

  /** The greatest key of the prefix: the reverse scan walks the whole database from its end,
      over every other keyspace, until it meets the prefix. */
  method LastKeyIn(db: Snapshot, prefix: Bytes) returns (key: Option<Bytes>)
    ensures key == HeadKey(db.Keys, prefix)
  {
    var it := new ReverseIterator(db);
    it.Rewind();
    while it.Valid()
      invariant it.snapshot == db
      invariant it.cursor.Some? ==> it.cursor.value in db
      invariant forall k :: k in db && prefix <= k ==> it.cursor.Some? && AtMost(k, it.cursor.value)
      decreases if it.cursor.Some? then |KeysUpTo(db.Keys, it.cursor.value)| else 0
    {
      if !it.ValidForPrefix(prefix) {
        ghost var below := KeysBelow(db.Keys, it.cursor.value);
        StepDown(db.Keys, it.cursor.value);
        it.Next();
        assert forall k :: k in db && prefix <= k ==> k in below;
        continue;
      }
      key := it.cursor;
      assert key.value in Matching(db.Keys, prefix);
      GreatestIsUnique(Matching(db.Keys, prefix), key);
      return;
    }
    key := None;
  }

  class Channel {
    const id: ChannelID
    const prefix: Bytes
    const indexPrefix: Bytes
    const store: Store

    ghost predicate Valid() {
      prefix == EntryPrefix(id) && indexPrefix == IndexPrefix(id)
    }

    constructor (id: ChannelID, store: Store)
      ensures Valid() && this.id == id && this.store == store
    {
      this.id, this.store := id, store;
      var entries := new Byte[PREFIX_SIZE](_ => 0);
      CopyInto(entries, 0, id);
      entries[32] := KEYSPACE_ENTRIES;
      var index := new Byte[PREFIX_SIZE](_ => 0);
      CopyInto(index, 0, id);
      index[32] := KEYSPACE_ARRIVAL;
      prefix, indexPrefix := entries[..], index[..];
      new;
      assert id[..32] == id;
    }

    method BuildEntryKey(entryID: Bytes) returns (k: array<Byte>)
      requires Valid()
      ensures fresh(k) && k[..] == EntryKey(id, entryID)
    {
      k := new Byte[ENTRY_KEY_SIZE](_ => 0);
      CopyInto(k, 0, prefix);
      assert prefix[..33] == prefix;
      assert k[..] == prefix + seq(30, _ => 0);
      CopyInto(k, 33, entryID);
      assert k[..] == EntryKey(id, entryID);
    }

    method BuildArrivalKey(entryID: Bytes, seconds: Seconds) returns (k: array<Byte>)
      requires Valid()
      ensures fresh(k) && k[..] == ArrivalKey(id, entryID, seconds)
    {
      k := new Byte[ARRIVAL_KEY_SIZE](_ => 0);
      CopyInto(k, 0, indexPrefix);
      assert indexPrefix[..33] == indexPrefix;
      assert k[..] == indexPrefix + seq(36, _ => 0);
      PutClock(k, seconds);
      assert k[..] == indexPrefix + BigEndian(6, seconds) + seq(30, _ => 0);
      CopyInto(k, 39, entryID);
      assert k[..] == ArrivalKey(id, entryID, seconds);
    }

    method EntryKeyOf(index: Bytes) returns (k: array<Byte>)
      requires Valid() && |index| >= 39
      ensures fresh(k) && k[..] == EntryKeyFromIndex(id, index)
    {
      k := BuildEntryKey(index[39..]);
    }

    method LastKey() returns (key: Option<Bytes>)
      ensures key == HeadKey(store.db.Keys, prefix)
    {
      key := LastKeyIn(store.db, prefix);
    }

    /** Writes the entry and its arrival-index key in one transaction, unless the entry key is
        taken. `seconds` is the clock reading and `fault` the failure met on the way, if any. */
    method Append(entry: Msg, seconds: Seconds, fault: Fault) returns (key: Option<Bytes>, err: Option<Error>)
      requires Valid()
      modifies store`db
      ensures store.db == Apply(old(store.db), Op.Append(id, entry, seconds, fault))
      ensures err == Outcome(old(store.db), Op.Append(id, entry, seconds, fault))
      ensures key == ReturnedKey(Op.Append(id, entry, seconds, fault))
    {
      var entryID := EntryID(entry);
      if entryID.None? {
        return None, Some(InvalidEntryID);
      }
      var entryKey := BuildEntryKey(entryID.value);
      if fault == MarshalFault {
        return Some(entryKey[..]), Some(Failed(fault));
      }
      var arrivalKey := BuildArrivalKey(entryID.value, seconds);
      key := Some(arrivalKey[..]);

      var txn := store.db;
      if fault == GetFault {
        return key, Some(Failed(fault));
      }
      if entryKey[..] in txn {
        return key, Some(KeyExists);
      }
      txn := txn[entryKey[..] := Stored(entry)];
      if fault == SetEntryFault {
        return key, Some(Failed(fault));
      }
      txn := txn[arrivalKey[..] := Nothing];
      if fault != NoFault {
        return key, Some(Failed(fault));
      }
      store.db := txn;
      err := None;
    }
  }

  ghost function KeysUpTo(keys: set<Bytes>, key: Bytes): set<Bytes> {
    set k | k in keys && AtMost(k, key)
  }

  lemma StepDown(keys: set<Bytes>, current: Bytes)
    requires current in keys
    ensures forall next :: next in keys && Less(next, current) ==>
              |KeysUpTo(keys, next)| < |KeysUpTo(keys, current)|
    ensures forall k :: k in keys && AtMost(k, current) && k != current ==> Less(k, current)
    ensures |KeysUpTo(keys, current)| > 0
  {
    StrictTotalOrder();
    assert current in KeysUpTo(keys, current);
    forall next | next in keys && Less(next, current)
      ensures |KeysUpTo(keys, next)| < |KeysUpTo(keys, current)|
    {
      assert KeysUpTo(keys, next) < KeysUpTo(keys, current);
      ProperSubsetSize(KeysUpTo(keys, next), KeysUpTo(keys, current));
    }
  }

  lemma ProperSubsetSize(a: set<Bytes>, b: set<Bytes>)
    requires a < b
    ensures |a| < |b|
  {
    assert b == a + (b - a);
    assert |b| == |a| + |b - a|;
  }

  /** The six shifts of the clock, on an int64 that has already lost its top 16 bits, give the
      low 48 bits of the second count in big-endian order. */
  lemma ClockBytes(seconds: Seconds)
    ensures var ts := Int64(seconds * 0x1_0000);
            BigEndian(6, seconds) ==
            [(ts / 0x100_0000_0000_0000) % 256, (ts / 0x1_0000_0000_0000) % 256, (ts / 0x100_0000_0000) % 256,
             (ts / 0x1_0000_0000) % 256, (ts / 0x100_0000) % 256, (ts / 0x1_0000) % 256]
  {
    var ts := Int64(seconds * 0x1_0000);
    var m := (ts - seconds * 0x1_0000) / 0x1_0000_0000_0000_0000;
    assert ts == seconds * 0x1_0000 + m * 0x1_0000_0000_0000_0000;
    var v0 := ts / 0x1_0000;
    assert v0 == seconds + m * 0x1_0000_0000_0000;
    Pow256Six();
    BigEndianWraps(6, seconds, m);
    assert BigEndian(6, v0) == BigEndian(6, seconds);
    ShiftedBytes(v0);
    assert ts / 0x100_0000 == v0 / 0x100;
    assert ts / 0x1_0000_0000 == v0 / 0x1_0000;
    assert ts / 0x100_0000_0000 == v0 / 0x100_0000;
    assert ts / 0x1_0000_0000_0000 == v0 / 0x1_0000_0000;
    assert ts / 0x100_0000_0000_0000 == v0 / 0x100_0000_0000;
  }

  lemma ShiftedBytes(v: int)
    ensures BigEndian(6, v) ==
            [(v / 0x100_0000_0000) % 256, (v / 0x1_0000_0000) % 256, (v / 0x100_0000) % 256,
             (v / 0x1_0000) % 256, (v / 0x100) % 256, v % 256]
  {
    var v1, v2, v3, v4, v5 := v / 0x100, v / 0x1_0000, v / 0x100_0000, v / 0x1_0000_0000, v / 0x100_0000_0000;
    assert v1 / 256 == v2 && v2 / 256 == v3 && v3 / 256 == v4 && v4 / 256 == v5;
    assert BigEndian(0, v5 / 256) == [];
    assert BigEndian(1, v5) == [v5 % 256];
    assert BigEndian(2, v4) == [v5 % 256, v4 % 256];
    assert BigEndian(3, v3) == [v5 % 256, v4 % 256, v3 % 256];
    assert BigEndian(4, v2) == [v5 % 256, v4 % 256, v3 % 256, v2 % 256];
    assert BigEndian(5, v1) == [v5 % 256, v4 % 256, v3 % 256, v2 % 256, v1 % 256];
  }
}

/** The key layout of the store: 33-byte channel prefixes, entry keys and arrival-index keys. */
module Keys {
  import opened ByteStrings

  /** The SHA-256 of a feed URI. */
  type ChannelID = b: Bytes | |b| == 32 witness seq(32, _ => 0)

  /** A Unix time in seconds, as `time.Now().Unix()` gives it. */
  type Seconds = x: int | -0x8000_0000_0000_0000 <= x < 0x8000_0000_0000_0000

  const KEYSPACE_ENTRIES: Byte := 0x01
  const KEYSPACE_ARRIVAL: Byte := 0x02
  const PREFIX_SIZE := 33
  const ID_SIZE := 30
  const ENTRY_KEY_SIZE := 63
  const ARRIVAL_KEY_SIZE := 69
  const CLOCK_LIMIT := 0x1_0000_0000_0000

  function EntryPrefix(c: ChannelID): Bytes { c + [KEYSPACE_ENTRIES] }

  function IndexPrefix(c: ChannelID): Bytes { c + [KEYSPACE_ARRIVAL] }

  /** What `copy` leaves of `id` in a zeroed field of `ID_SIZE` bytes: longer IDs are cut,
      shorter ones are followed by zeros. */
  function Pad(id: Bytes): (r: Bytes)
    ensures |r| == ID_SIZE
    ensures |id| == ID_SIZE ==> r == id
  {
    if |id| >= ID_SIZE then id[..ID_SIZE] else id + seq(ID_SIZE - |id|, _ => 0)
  }

  function EntryKey(c: ChannelID, id: Bytes): Bytes {
    EntryPrefix(c) + Pad(id)
  }

  function ArrivalKey(c: ChannelID, id: Bytes, seconds: Seconds): Bytes {
    IndexPrefix(c) + BigEndian(6, seconds) + Pad(id)
  }

  function EntryKeyFromIndex(c: ChannelID, index: Bytes): Bytes
    requires |index| >= 39
  {
    EntryPrefix(c) + Pad(index[39..])
  }

  function EntryIDFromIndex(index: Bytes): Bytes
    requires |index| >= 39
  {
    Pad(index[39..])
  }

  function EntryIDFromKey(key: Bytes): Bytes
    requires |key| >= PREFIX_SIZE
  {
    key[PREFIX_SIZE..]
  }

  /** A key outside every channel's two keyspaces, like the host's 2-byte snapshot key. */
  predicate Foreign(key: Bytes) {
    |key| < PREFIX_SIZE || (key[32] != KEYSPACE_ENTRIES && key[32] != KEYSPACE_ARRIVAL)
  }

  /** Of all entry and index keyspaces of all channels, a key lies in exactly one when it is not
      foreign and in none when it is. */
  lemma KeyspacesPartition(key: Bytes)
    ensures forall c: ChannelID, d: ChannelID :: EntryPrefix(c) <= key && EntryPrefix(d) <= key ==> c == d
    ensures forall c: ChannelID, d: ChannelID :: IndexPrefix(c) <= key && IndexPrefix(d) <= key ==> c == d
    ensures forall c: ChannelID, d: ChannelID :: !(EntryPrefix(c) <= key && IndexPrefix(d) <= key)
    ensures Foreign(key) <==> forall c: ChannelID :: !(EntryPrefix(c) <= key) && !(IndexPrefix(c) <= key)
  {
    forall c: ChannelID ensures EntryPrefix(c) <= key || IndexPrefix(c) <= key ==> c == key[..32] {}
    forall c: ChannelID ensures EntryPrefix(c) <= key ==> key[32] == KEYSPACE_ENTRIES {
      assert EntryPrefix(c)[32] == KEYSPACE_ENTRIES;
    }
    forall c: ChannelID ensures IndexPrefix(c) <= key ==> key[32] == KEYSPACE_ARRIVAL {
      assert IndexPrefix(c)[32] == KEYSPACE_ARRIVAL;
    }
    if !Foreign(key) {
      var c: ChannelID := key[..32];
      assert EntryPrefix(c) <= key || IndexPrefix(c) <= key;
    }
  }

  /** Entry keys of one channel coincide exactly when the padded IDs do, and follow their order;
      for IDs of the expected 30 bytes these are the IDs themselves. */
  lemma {:induction false} EntryKeyOrder(c: ChannelID, a: Bytes, b: Bytes)
    ensures EntryKey(c, a) == EntryKey(c, b) <==> Pad(a) == Pad(b)
    ensures Less(EntryKey(c, a), EntryKey(c, b)) <==> Less(Pad(a), Pad(b))
    ensures |a| == ID_SIZE && |b| == ID_SIZE ==>
              (EntryKey(c, a) == EntryKey(c, b) <==> a == b)
              && (Less(EntryKey(c, a), EntryKey(c, b)) <==> Less(a, b))
  {
    CommonPrefix(EntryPrefix(c), Pad(a), Pad(b));
    assert EntryKey(c, a)[PREFIX_SIZE..] == Pad(a) && EntryKey(c, b)[PREFIX_SIZE..] == Pad(b);
  }

  /** IDs of other lengths collide: every short ID shares its key with its zero-extended forms up
      to 30 bytes, and every long one with its own first 30 bytes. */
  lemma EntryKeyNotInjective(c: ChannelID, id: Bytes, n: nat)
    ensures |id| + n <= ID_SIZE ==> EntryKey(c, id) == EntryKey(c, id + seq(n, _ => 0))
    ensures |id| > ID_SIZE ==> EntryKey(c, id) == EntryKey(c, id[..ID_SIZE])
  {
    if |id| + n <= ID_SIZE {
      assert Pad(id) == Pad(id + seq(n, _ => 0));
    }
  }

  /** The decoders undo the encoders, for IDs of every length and clocks of every value. */
  lemma IndexRoundTrip(c: ChannelID, id: Bytes, seconds: Seconds)
    ensures |ArrivalKey(c, id, seconds)| == ARRIVAL_KEY_SIZE && IndexPrefix(c) <= ArrivalKey(c, id, seconds)
    ensures EntryKeyFromIndex(c, ArrivalKey(c, id, seconds)) == EntryKey(c, id)
    ensures EntryIDFromIndex(ArrivalKey(c, id, seconds)) == EntryIDFromKey(EntryKey(c, id)) == Pad(id)
    ensures |EntryKey(c, id)| == ENTRY_KEY_SIZE && EntryPrefix(c) <= EntryKey(c, id)
  {
    assert ArrivalKey(c, id, seconds)[39..] == Pad(id);
    assert EntryKey(c, id)[PREFIX_SIZE..] == Pad(id);
  }

  lemma Pow256Six()
    ensures Pow256(6) == CLOCK_LIMIT
  {
    assert Pow256(0) == 1 && Pow256(1) == 256 && Pow256(2) == 0x1_0000 && Pow256(3) == 0x100_0000;
    assert Pow256(4) == 0x1_0000_0000 && Pow256(5) == 0x100_0000_0000;
  }

  /** While the clock fits 48 bits, arrival keys order by second first and by padded ID second. */
  lemma ArrivalOrder(c: ChannelID, a: Bytes, s: Seconds, b: Bytes, t: Seconds)
    requires 0 <= s < CLOCK_LIMIT && 0 <= t < CLOCK_LIMIT
    ensures Less(ArrivalKey(c, a, s), ArrivalKey(c, b, t)) <==> s < t || (s == t && Less(Pad(a), Pad(b)))
    ensures ArrivalKey(c, a, s) == ArrivalKey(c, b, t) <==> s == t && Pad(a) == Pad(b)
  {
    Pow256Six();
    BigEndianOrder(6, s, t);
    var x, y := BigEndian(6, s), BigEndian(6, t);
    HeadDecides(x, y, Pad(a), Pad(b));
    CommonPrefix(IndexPrefix(c), x + Pad(a), y + Pad(b));
    assert ArrivalKey(c, a, s) == IndexPrefix(c) + (x + Pad(a));
    assert ArrivalKey(c, b, t) == IndexPrefix(c) + (y + Pad(b));
    assert ArrivalKey(c, a, s)[33..39] == x && ArrivalKey(c, b, t)[33..39] == y;
    assert ArrivalKey(c, a, s)[39..] == Pad(a) && ArrivalKey(c, b, t)[39..] == Pad(b);
  }

  /** `x` as Go's int64 keeps it. */
  function Int64(x: int): (r: int)
    ensures -0x8000_0000_0000_0000 <= r < 0x8000_0000_0000_0000
    ensures (r - x) % 0x1_0000_0000_0000_0000 == 0
  {
    (x + 0x8000_0000_0000_0000) % 0x1_0000_0000_0000_0000 - 0x8000_0000_0000_0000
  }

  /** Go's built-in `copy(dst[at:], src)`: as many bytes as both sides have. */
  method CopyInto(dst: array<Byte>, at: nat, src: Bytes)
    requires at <= dst.Length
    modifies dst
    ensures var n := if |src| < dst.Length - at then |src| else dst.Length - at;
            dst[..] == old(dst[..])[..at] + src[..n] + old(dst[..])[at + n..]
  {
    var n := if |src| < dst.Length - at then |src| else dst.Length - at;
    for i := 0 to n
      invariant dst[..at] == old(dst[..])[..at]
      invariant dst[at..at + i] == src[..i]
      invariant dst[at + i..] == old(dst[..])[at + i..]
    {
      dst[at + i] := src[i];
      assert dst[at..at + i + 1] == dst[at..at + i] + [src[i]];
    }
    assert dst[..] == dst[..at] + dst[at..at + n] + dst[at + n..];
  }
}

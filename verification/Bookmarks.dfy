/** What an index replay delivers from a consistent store, and how far a bookmark carries. */
module Bookmarks {
  import opened ByteStrings
  import opened Database
  import opened IndexReplay
  import opened Keys
  import opened Messages
  import opened Projection
  import opened StoreRuns
  import opened StreamOptions
  import opened Transactions

  // ---------- A replay of a consistent store ----------

  /** While index and entries agree no key of a replay is too short or without its entry, so the
      replay never fails. */
  lemma IndexNeverDangles(db: Snapshot, c: ChannelID, seek: Bytes)
    requires IndexAgrees(db, c)
    ensures Sliceable(db, c)
    ensures forall a :: a in ReplayOrder(db.Keys, c, seek) ==> |a| >= 39 && !Dangling(a, db, c)
  {
    OrderIsAscending(db.Keys, seek, IndexPrefix(c));
  }

  /** A replay from the start of the index covers the channel: each entry of the snapshot exactly
      once, also those that a live feed had passed by, and nothing else. */
  lemma {:induction false} FullReplayCoversChannel(db: Snapshot, c: ChannelID)
    requires IndexAgrees(db, c)
    ensures var order := ReplayOrder(db.Keys, c, []);
            && (forall i :: 0 <= i < |order| ==>
                  |order[i]| >= 39 && EntryKeyFromIndex(c, order[i]) in Matching(db.Keys, EntryPrefix(c)))
            && (forall i, j :: 0 <= i < j < |order| ==>
                  EntryKeyFromIndex(c, order[i]) != EntryKeyFromIndex(c, order[j]))
            && (forall k :: k in Matching(db.Keys, EntryPrefix(c)) ==>
                  exists i :: 0 <= i < |order| && EntryKeyFromIndex(c, order[i]) == k)
  {
    var order := ReplayOrder(db.Keys, c, []);
    SeekInsideIsUnblocked(db.Keys, [], IndexPrefix(c));
    OrderIsAscending(db.Keys, [], IndexPrefix(c));
    forall i | 0 <= i < |order|
      ensures order[i] in db && IsArrival(c, order[i])
      ensures EntryKeyFromIndex(c, order[i]) in Matching(db.Keys, EntryPrefix(c))
    {
      assert order[i] in order;
    }
    forall i, j | 0 <= i < j < |order| ensures EntryKeyFromIndex(c, order[i]) != EntryKeyFromIndex(c, order[j]) {
      LessIrreflexive(order[i]);
      assert IsArrival(c, order[i]) && IsArrival(c, order[j]);
    }
    forall k | k in Matching(db.Keys, EntryPrefix(c))
      ensures exists i :: 0 <= i < |order| && EntryKeyFromIndex(c, order[i]) == k
    {
      assert HasArrival(db, c, k);
      var a :| a in db && IsArrival(c, a) && EntryKeyFromIndex(c, a) == k;
      PrefixAtMost(IndexPrefix(c), a);
      assert a in InRange(db.Keys, [], IndexPrefix(c));
      assert a in order;
    }
  }

  // ---------- Runs of appends with a clock ----------

  /** The `i`-th write is an append to `c` that succeeds. */
  ghost predicate Accepted(ops: seq<Op>, i: nat, c: ChannelID)
    requires i < |ops|
  {
    IsAppendTo(ops[i], c) && Outcome(ApplyAll(map[], ops[..i]), ops[i]).None?
  }

  /** The arrival key that an accepted append returned. */
  function Bookmark(op: Op): Bytes
    requires op.Append? && EntryID(op.entry).Some?
  {
    ArrivalKey(op.channel, EntryID(op.entry).value, op.seconds)
  }

  predicate IsAppendTo(op: Op, c: ChannelID) {
    op.Append? && op.channel == c
  }

  /** A replay that comes to `a` shows `entry` for it. */
  ghost predicate Delivers(db: Snapshot, c: ChannelID, a: Bytes, entry: Msg) {
    a in db && IsArrival(c, a) && EntryKeyFromIndex(c, a) in db && Replayed(false, db, c, a) == entry
  }

  /** The clock does not go back between appends to `c` and stays within 48 bits. */
  predicate ClockRuns(ops: seq<Op>, c: ChannelID) {
    && (forall i :: 0 <= i < |ops| && IsAppendTo(ops[i], c) ==> 0 <= ops[i].seconds < CLOCK_LIMIT)
    && (forall i, j :: 0 <= i < j < |ops| && IsAppendTo(ops[i], c) && IsAppendTo(ops[j], c) ==>
          ops[i].seconds <= ops[j].seconds)
  }

  lemma {:induction false} ApplyAllSplits(db: Snapshot, ops: seq<Op>, i: nat)
    requires i <= |ops|
    ensures ApplyAll(db, ops) == ApplyAll(ApplyAll(db, ops[..i]), ops[i..])
  {
    if i == |ops| {
      assert ops[..i] == ops;
    } else {
      var n := |ops| - 1;
      ApplyAllSplits(db, ops[..n], i);
      assert ops[..n][..i] == ops[..i] && ops[..n][i..] == ops[i..n] == ops[i..][..n - i];
      assert ops[i..][|ops[i..]| - 1] == ops[n];
    }
  }

  /** What an accepted append wrote is there for good: its arrival key, and under the entry key
      that the arrival key decodes to, the very message. */
  lemma {:induction false} AcceptedStays(ops: seq<Op>, i: nat, c: ChannelID)
    requires AllLawful(ops) && i < |ops| && Accepted(ops, i, c)
    ensures EntryID(ops[i].entry).Some? && ReturnedKey(ops[i]) == Some(Bookmark(ops[i]))
    ensures Delivers(ApplyAll(map[], ops), c, Bookmark(ops[i]), ops[i].entry)
  {
    var id := EntryID(ops[i].entry).value;
    var before := ApplyAll(map[], ops[..i]);
    var after := Apply(before, ops[i]);
    IndexRoundTrip(c, id, ops[i].seconds);
    ApplyAllSplits(map[], ops, i + 1);
    assert ops[..i + 1][..i] == ops[..i];
    assert ApplyAll(map[], ops[..i + 1]) == after;
    WriteActsOnFeed(before, ops[i], c);
    FeedOnlyGrows(after, ops[i + 1..], c);
    assert Pad(id) in Feed(after, c) && Feed(after, c)[Pad(id)] == ops[i].entry;
    var final := ApplyAll(map[], ops);
    assert Pad(id) in Feed(final, c) && Feed(final, c)[Pad(id)] == ops[i].entry;
    assert EntryPrefix(c) + Pad(id) == EntryKey(c, id);
  }

  lemma BookmarkIsUnblocked(keys: set<Bytes>, c: ChannelID, a: Bytes)
    requires IsArrival(c, a)
    ensures !Blocked(keys, a, IndexPrefix(c))
  {
    PrefixAtMost(IndexPrefix(c), a);
    StrictTotalOrder();
    SeekInsideIsUnblocked(keys, a, IndexPrefix(c));
  }

  /** Seeking to the bookmark of an accepted append, a replay of the database as any later writes
      left it starts with that very entry. */
  lemma {:induction false} BookmarkComesFirst(ops: seq<Op>, c: ChannelID, i: nat)
    requires AllLawful(ops) && i < |ops| && Accepted(ops, i, c)
    ensures EntryID(ops[i].entry).Some?
    ensures var order := ReplayOrder(ApplyAll(map[], ops).Keys, c, Bookmark(ops[i]));
            order != [] && order[0] == Bookmark(ops[i])
    ensures Delivers(ApplyAll(map[], ops), c, Bookmark(ops[i]), ops[i].entry)
  {
    AcceptedStays(ops, i, c);
    var db, a := ApplyAll(map[], ops), Bookmark(ops[i]);
    hide Bookmark, ApplyAll;
    BookmarkIsUnblocked(db.Keys, c, a);
    OrderIsAscending(db.Keys, a, IndexPrefix(c));
    var order := ReplayOrder(db.Keys, c, a);
    assert a in InRange(db.Keys, a, IndexPrefix(c));
    assert a in order;
    assert order[0] in order && AtMost(a, order[0]);
    SortedFirst(order, a);
    LessAntisymmetric(a, order[0]);
  }

  lemma SortedFirst(xs: seq<Bytes>, x: Bytes)
    requires Sorted(xs) && x in xs
    ensures AtMost(xs[0], x)
  {
    var i :| 0 <= i < |xs| && xs[i] == x;
  }

  /** Which other accepted entries the replay from a bookmark delivers: exactly those with a
      later clock reading, and in the same second those with a greater padded ID. */
  lemma {:induction false} BookmarkResume(ops: seq<Op>, c: ChannelID, i: nat, j: nat)
    requires AllLawful(ops) && ClockRuns(ops, c) && i < |ops| && j < |ops| && i != j
    requires Accepted(ops, i, c) && Accepted(ops, j, c)
    ensures EntryID(ops[i].entry).Some? && EntryID(ops[j].entry).Some?
    ensures Bookmark(ops[j]) in ReplayOrder(ApplyAll(map[], ops).Keys, c, Bookmark(ops[i])) <==>
              ops[i].seconds < ops[j].seconds
              || (ops[i].seconds == ops[j].seconds
                  && AtMost(Pad(EntryID(ops[i].entry).value), Pad(EntryID(ops[j].entry).value)))
  {
    AcceptedStays(ops, i, c);
    AcceptedStays(ops, j, c);
    ArrivalOrder(c, EntryID(ops[i].entry).value, ops[i].seconds, EntryID(ops[j].entry).value, ops[j].seconds);
    var db, a, b := ApplyAll(map[], ops), Bookmark(ops[i]), Bookmark(ops[j]);
    assert a == b <==> ops[i].seconds == ops[j].seconds
                       && Pad(EntryID(ops[i].entry).value) == Pad(EntryID(ops[j].entry).value);
    hide Bookmark, ApplyAll;
    BookmarkIsUnblocked(db.Keys, c, a);
    OrderIsAscending(db.Keys, a, IndexPrefix(c));
    assert b in InRange(db.Keys, a, IndexPrefix(c)) <==> AtMost(a, b);
  }

  /** So everything that arrived in a later second is delivered, across any number of appends. */
  lemma {:induction false} LaterSecondsAreDelivered(ops: seq<Op>, c: ChannelID, i: nat, j: nat)
    requires AllLawful(ops) && ClockRuns(ops, c) && i < |ops| && j < |ops|
    requires Accepted(ops, i, c) && Accepted(ops, j, c) && ops[i].seconds < ops[j].seconds
    ensures EntryID(ops[i].entry).Some? && EntryID(ops[j].entry).Some?
    ensures Bookmark(ops[j]) in ReplayOrder(ApplyAll(map[], ops).Keys, c, Bookmark(ops[i]))
    ensures Delivers(ApplyAll(map[], ops), c, Bookmark(ops[j]), ops[j].entry)
  {
    BookmarkResume(ops, c, i, j);
    AcceptedStays(ops, j, c);
  }

  /** Two appends in the same second, the second one with the smaller ID. */
  function SameSecond(c: ChannelID): seq<Op> {
    [Op.Append(c, IDOnly([2]), 5, NoFault), Op.Append(c, IDOnly([1]), 5, NoFault)]
  }

  lemma OtherIDIsAccepted(c: ChannelID, a: Bytes, b: Bytes, s: Seconds)
    requires Pad(a) != Pad(b)
    ensures Outcome(Apply(map[], Op.Append(c, IDOnly(a), s, NoFault)), Op.Append(c, IDOnly(b), s, NoFault)).None?
  {
    assert EntryID(IDOnly(a)) == Some(a) && EntryID(IDOnly(b)) == Some(b);
    EntryKeyOrder(c, b, a);
    IndexRoundTrip(c, b, s);
    KeyspacesPartition(EntryKey(c, b));
    IndexRoundTrip(c, a, s);
  }

  lemma BothAreAccepted(c: ChannelID)
    ensures AllLawful(SameSecond(c)) && ClockRuns(SameSecond(c), c)
    ensures Accepted(SameSecond(c), 0, c) && Accepted(SameSecond(c), 1, c)
  {
    var ops := SameSecond(c);
    var none: seq<Op> := [];
    assert ops[..0] == none && ops[..1] == [ops[0]] && [ops[0]][..0] == none;
    assert ApplyAll(map[], ops[..1]) == Apply(map[], ops[0]);
    SmallerID();
    OtherIDIsAccepted(c, [2], [1], 5);
    hide Apply;
  }

  /** But not everything that arrived after the bookmark: both appends are accepted, and a replay
      from the first one's bookmark never shows the second. */
  lemma SameSecondCanBeMissed(c: ChannelID)
    ensures var ops := SameSecond(c);
            && Accepted(ops, 0, c) && Accepted(ops, 1, c)
            && Bookmark(ops[1]) !in ReplayOrder(ApplyAll(map[], ops).Keys, c, Bookmark(ops[0]))
  {
    BothAreAccepted(c);
    SmallerID();
    assert EntryID(IDOnly([2])) == Some([2]) && EntryID(IDOnly([1])) == Some([1]);
    hide ApplyAll, Apply, Outcome;
    BookmarkResume(SameSecond(c), c, 0, 1);
    LessAntisymmetric(Pad([1]), Pad([2]));
  }

  lemma SmallerID()
    ensures Less(Pad([1]), Pad([2])) && Pad([1]) != Pad([2])
  {
    assert Pad([1])[0] == 1 && Pad([2])[0] == 2;
  }

  // ---------- Keys-only replay is a projection ----------

  /** Two replays of the same snapshot from the same position through the same rounds, one keys-only
      and one full: neither fails, they are equally long, and element by element the keys-only one
      has the padded ID of the entry in the full one, the very ID exactly when it has 30 bytes. */
  lemma {:induction false} ReplayProjection(db: Snapshot, c: ChannelID, short: StreamOpts, full: StreamOpts,
                                            rounds: seq<Round>, ks: seq<Msg>, fs: seq<Msg>,
                                            kerr: Option<Error>, ferr: Option<Error>)
    requires Consistent(db) && short.KeysOnly() && !full.KeysOnly()
    requires short.seek == full.seek && short.max == full.max
    requires Walked(db, c, short, rounds, ks, kerr) && Walked(db, c, full, rounds, fs, ferr)
    ensures kerr.None? && ferr.None? && |ks| == |fs|
    ensures forall i :: 0 <= i < |ks| ==> IsIDOf(ks[i], fs[i])
  {
    var order := ReplayOrder(db.Keys, c, short.seek);
    assert IndexAgrees(db, c);
    IndexNeverDangles(db, c, short.seek);
    OrderedKeysAreArrivals(db, c, short.seek);
    hide Consistent, IndexAgrees, ReplayOrder, Allowed, ShowsKey, IsIDOf, Dangling, Sliceable;
    forall i | 0 <= i < |ks| ensures IsIDOf(ks[i], fs[i]) {
      ReplayedKeyIsID(db, c, order[i], ks[i], fs[i]);
    }
  }

  lemma OrderedKeysAreArrivals(db: Snapshot, c: ChannelID, seek: Bytes)
    ensures var order := ReplayOrder(db.Keys, c, seek);
            forall i :: 0 <= i < |order| ==> order[i] in db && IndexPrefix(c) <= order[i]
  {
    var order := ReplayOrder(db.Keys, c, seek);
    OrderIsAscending(db.Keys, seek, IndexPrefix(c));
    forall i | 0 <= i < |order| ensures order[i] in db && IndexPrefix(c) <= order[i] {
      assert order[i] in order;
    }
  }

  lemma ReplayedKeyIsID(db: Snapshot, c: ChannelID, a: Bytes, short: Msg, full: Msg)
    requires Consistent(db) && a in db && IndexPrefix(c) <= a
    requires ShowsKey(short, a, true, db, c) && ShowsKey(full, a, false, db, c)
    ensures IsIDOf(short, full)
  {
    assert IndexAgrees(db, c) && EntriesCarryIDs(db, c);
    var k := EntryKeyFromIndex(c, a);
    assert k in db && EntryPrefix(c) <= k;
    var id := EntryID(db[k].msg).value;
    IndexRoundTrip(c, id, 0);
    assert EntryIDFromKey(k) == EntryIDFromIndex(a);
  }
}

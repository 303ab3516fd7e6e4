/** Guarantees that span several layers: requests and readers, client and server, live feed and
    replay, clock and feed order. */
module Guarantees {
  import opened ByteStrings
  import opened Cancellation
  import opened Database
  import opened FeedStarts
  import opened Keys
  import opened Messages
  import opened LiveFeed
  import opened Reader
  import opened ReaderInvariant
  import opened StreamOptions
  import opened Transactions
  import Bookmarks
  import Client
  import IndexReplay
  import Session
  import SessionRuns
  import StoreRuns
  import Timestamps

  // ---------- What the live feed misses, a replay has ----------

  /** An entry of an epoch's range that the cursor has passed without publishing it was committed
      after the snapshot in which it was passed; and a replay of the index from its start, taken
      from the same database, comes to it. */
  lemma {:induction false} MissedEntriesAreReplayed(w: World, opts: StreamOpts, es: seq<Event>, j: nat, k: Bytes)
    requires Initial(w, opts) && LawfulRun(es) && StoreRuns.Consistent(w.db) && j < |Epochs(Run(w, es).r)|
    requires var e := Epochs(Run(w, es).r)[j];
             k in Run(w, es).db && Covers(e, w.prefix, k) && Passed(e, k) && k !in e.keys
    ensures var w', e, c := Run(w, es), Epochs(Run(w, es).r)[j], w.prefix[..32];
            && |e.views| == |e.keys| && k !in e.views[PassedAt(e, k)]
            && var order := IndexReplay.ReplayOrder(w'.db.Keys, c, []);
            exists i :: 0 <= i < |order| && |order[i]| >= 39 && EntryKeyFromIndex(c, order[i]) == k
  {
    assert w.prefix <= k by { PrefixAndOptionsStay(w, es); }
    hide Run, Initial, LawfulRun, Covers, Passed, PassedAt, EpochOK, StoreRuns.IndexAgrees, IndexReplay.ReplayOrder;
    ReachedInv(w, opts, es);
    PrefixAndOptionsStay(w, es);
    Projection.RunKeepsConsistent(w, es);
    var w', e, c: ChannelID := Run(w, es), Epochs(Run(w, es).r)[j], w.prefix[..32];
    assert EpochOK(e, w.prefix);
    hide Inv;
    PublishedExactlyWhenInTime(e, w.prefix, k);
    SameLength(e, w.prefix);
    assert w.prefix == EntryPrefix(c);
    assert StoreRuns.IndexAgrees(w'.db, c);
    Bookmarks.FullReplayCoversChannel(w'.db, c);
    assert k in Matching(w'.db.Keys, EntryPrefix(c));
  }

  lemma SameLength(e: Epoch, prefix: Bytes)
    requires EpochOK(e, prefix)
    ensures |e.views| == |e.keys|
  {
  }

  // ---------- From the head ----------

  /** A subscription that starts from the head and skips the first entry publishes only entries
      greater than every entry that the channel had at the moment of the start. */
  lemma FromHeadOnlyNewerEntries(w: World, opts: StreamOpts, before: seq<Event>, pick: Pick, after: seq<Event>,
                                 x: Bytes, k: Bytes)
    requires Initial(w, opts) && opts.FromHead() && opts.SkipFirst() && w.resets == []
    requires LawfulRun(before + [Move(pick)] + after) && NoReset(before + [Move(pick)] + after)
    requires Run(w, before).r.phase.Fresh?
    requires x in Run(w, before).db && w.prefix <= x
    requires k in Run(w, before + [Move(pick)] + after).r.epoch.keys
    ensures Less(x, k)
  {
    var es := before + [Move(pick)] + after;
    var start := Run(w, before);
    var begun := Moved(start, pick);
    NoResetInParts(before, [Move(pick)], after);
    SingleEpoch(w, before);
    PrefixAndOptionsStay(w, before);
    assert begun.r.epoch.seek == begun.r.epoch.skip == HeadSeek(start.db.Keys, w.prefix) && begun.resets == [];
    HeadIsGreatest(start.db.Keys, w.prefix, x);
    RunSplits(w, before + [Move(pick)], after);
    assert (before + [Move(pick)])[..|before|] == before;
    assert Run(w, before + [Move(pick)]) == begun;
    SeekStays(begun, after);
    ReachedInv(w, opts, es);
    PrefixAndOptionsStay(w, es);
    var e := Run(w, es).r.epoch;
    assert EpochOK(e, w.prefix);
    hide Run, Inv, Step, Moved, HeadSeek;
    KeysAreAboveSkippedSeek(e, w.prefix, k);
    if x != e.seek {
      LessTransitive(x, e.seek, k);
    }
  }

  lemma NoResetInParts(a: seq<Event>, b: seq<Event>, c: seq<Event>)
    requires NoReset(a + b + c)
    ensures NoReset(a) && NoReset(c)
  {
    forall i | 0 <= i < |a| ensures !a[i].RequestReset? {
      assert a[i] == (a + b + c)[i];
    }
    forall i | 0 <= i < |c| ensures !c[i].RequestReset? {
      assert c[i] == (a + b + c)[|a| + |b| + i];
    }
  }

  lemma HeadIsGreatest(keys: set<Bytes>, prefix: Bytes, x: Bytes)
    requires x in keys && prefix <= x
    ensures AtMost(x, HeadSeek(keys, prefix))
  {
    assert x in Matching(keys, prefix);
  }

  lemma KeysAreAboveSkippedSeek(e: Epoch, prefix: Prefix, k: Bytes)
    requires EpochOK(e, prefix) && k in e.keys && e.skip == e.seek
    ensures Less(e.seek, k)
  {
    var i :| 0 <= i < |e.keys| && e.keys[i] == k;
    assert KeyOK(e, prefix, 0) && AtMost(SeekTarget(e.seek, prefix), e.keys[0]);
    assert Less(e.seek, e.keys[0]);
    if i > 0 {
      LessTransitive(e.seek, e.keys[0], k);
    }
  }

  // ---------- Starting at an entry ----------

  /** What `AtEntry` and `AfterEntry` promise: the entries after the named one, or from it on. */
  predicate Asks(c: ChannelID, req: Session.OpenReq, k: Bytes) {
    Less(EntryKey(c, req.seekEntryID), k) || (req.mode == Session.AtEntry && k == EntryKey(c, req.seekEntryID))
  }

  ghost function Promised(keys: set<Bytes>, c: ChannelID, req: Session.OpenReq): set<Bytes> {
    set k | k in Matching(keys, EntryPrefix(c)) && Asks(c, req, k)
  }

  /** What a reader with the translated options finds to publish in one snapshot. */
  ghost function Found(keys: set<Bytes>, c: ChannelID, opts: StreamOpts): set<Bytes> {
    if Blocked(keys, opts.seek, EntryPrefix(c)) then {}
    else FromStart(keys, EntryPrefix(c), opts.seek, opts.SkipFirst())
  }

  predicate StartsAtEntry(req: Session.OpenReq) {
    req.mode in {Session.AtEntry, Session.AfterEntry} && |req.seekEntryID| == ID_SIZE
  }

  /** A request to start at or after an entry finds the whole channel from its first entry when the
      ID sorts below the prefix and is not blocked, and nothing otherwise, whatever entry it names.
      So it finds what it was promised if, and only if, the channel has no entry before the named
      one (or no such entry and not that one either, under `AfterEntry`) in the first case, and no
      entry that was asked for in the second. */
  lemma {:induction false} EntryModesMissTheirEntry(keys: set<Bytes>, c: ChannelID, req: Session.OpenReq)
    requires StartsAtEntry(req)
    ensures Session.Translated(req).Some?
    ensures var id, all, found := req.seekEntryID, Matching(keys, EntryPrefix(c)),
                                  Found(keys, c, Session.Translated(req).value);
            var fromGenesis := Less(id, EntryPrefix(c)) && !Blocked(keys, id, EntryPrefix(c));
            && found == (if fromGenesis then all else {})
            && (found == Promised(keys, c, req) <==> forall k :: k in all ==> (Asks(c, req, k) <==> fromGenesis))
  {
    var all := Matching(keys, EntryPrefix(c));
    ShortFromStart(keys, EntryPrefix(c), req.seekEntryID, req.mode == Session.AfterEntry);
    TranslatedStart(req);
    hide Asks, Matching, Less;
    var found := Found(keys, c, Session.Translated(req).value);
    if found == Promised(keys, c, req) {
      forall k | k in all ensures Asks(c, req, k) <==> k in found {
        assert Asks(c, req, k) <==> k in Promised(keys, c, req);
      }
    }
  }

  /** And so for the stream: without resets and with IDs in order, its keys are the channel's first
      ones, or there are none. */
  lemma {:induction false} EntryModesStream(req: Session.OpenReq, w: World, es: seq<Event>)
    requires StartsAtEntry(req) && Initial(w, Session.Translated(req).value) && w.resets == []
    requires LawfulRun(es) && NoReset(es) && IncreasingIDs(w, es)
    ensures var keys, all := Run(w, es).r.epoch.keys, Ascending(Matching(Run(w, es).db.Keys, w.prefix));
            if Less(req.seekEntryID, w.prefix) then |keys| <= |all| && keys == all[..|keys|] else keys == []
  {
    assert |req.seekEntryID| == ID_SIZE;
    hide *;
    TranslatedStart(req);
    var opts, w' := Session.Translated(req).value, Run(w, es);
    LiveFeedIsSortedPrefix(w, opts, es);
    FirstEpochOptions(w, opts, es);
    ShortFromStart(w'.db.Keys, w.prefix, req.seekEntryID, opts.SkipFirst());
    NothingAscending();
  }

  lemma ShortFromStart(keys: set<Bytes>, prefix: Prefix, seek: Bytes, skipFirst: bool)
    requires |seek| == ID_SIZE
    ensures FromStart(keys, prefix, seek, skipFirst) == if Less(seek, prefix) then Matching(keys, prefix) else {}
  {
    StoreRuns.ShortSeekIsAllOrNothing(keys, seek, prefix);
    assert seek !in Matching(keys, prefix);
  }

  lemma NothingAscending()
    ensures Ascending({}) == []
  {
    AscendingEnumerates({});
  }

  lemma TranslatedStart(req: Session.OpenReq)
    requires StartsAtEntry(req)
    ensures Session.Translated(req).Some? && Session.Translated(req).value.seek == req.seekEntryID
    ensures !Session.Translated(req).value.FromHead()
    ensures Session.Translated(req).value.SkipFirst() <==> req.mode == Session.AfterEntry
  {
  }

  // ---------- The limit, from the request to the stream ----------

  /** What a request allows: the number it asks for if that is positive, else everything. */
  function Asked(req: Session.OpenReq): U64 {
    if req.maxEntries > 0 then req.maxEntries else TAIL
  }

  /** A stream that was never reset sends no more messages than its request allows, that is at
      least one, and once it has sent them its reader returns in two moves without another. */
  lemma {:induction false} LimitAcrossLayers(req: Session.OpenReq, w: World, es: seq<Event>, p: Pick, q: Pick)
    requires Session.Translated(req).Some? && Initial(w, Session.Translated(req).value) && w.resets == []
    requires LawfulRun(es) && NoReset(es)
    ensures 0 < Asked(req) && |Run(w, es).r.out| <= Asked(req)
    ensures |Run(w, es).r.out| == Asked(req) ==>
              var w' := Moved(Moved(Run(w, es), p), q); w'.r.phase.Returned? && w'.r.out == Run(w, es).r.out
  {
    var opts := Session.Translated(req).value;
    assert opts.max == Asked(req);
    hide Session.Translated;
    ReachedInv(w, opts, es);
    FirstEpochOptions(w, opts, es);
    Projection.StreamShowsEntries(w, opts, es);
    var r := Run(w, es).r;
    CountsFromZero(r);
    assert EpochOK(r.epoch, Run(w, es).prefix);
    assert Projection.AllKeys(r) == r.epoch.keys;
    assert |r.out| == r.count && !(r.phase.Fresh? && |r.out| > 0);
    hide *;
    if |Run(w, es).r.out| == Asked(req) {
      LimitStops(w, opts, es, p, q);
    }
  }

  /** So for the index replay that serves the other kind of stream. */
  lemma LimitOnReplay(req: Session.OpenReq, view: Snapshot, c: ChannelID, rounds: seq<IndexReplay.Round>,
                      out: seq<Msg>, err: Option<Error>)
    requires Session.Translated(req).Some?
    requires IndexReplay.Walked(view, c, Session.Translated(req).value, rounds, out, err)
    ensures |out| <= Asked(req)
  {
    hide IndexReplay.Shows, IndexReplay.Dangling, IndexReplay.ReplayOrder;
  }

  // ---------- Replaying the index by request ----------

  /** A replay by request ignores the bookmark it is given and starts at the beginning of the index.
      It shows what the bookmark promises if, and only if, nothing in the index sorts below it. */
  lemma {:induction false} IndexModeIgnoresBookmark(keys: set<Bytes>, c: ChannelID, req: Session.OpenReq)
    requires req.mode == Session.FromIndex && StoreRuns.IsArrival(c, req.seekEntryID)
    ensures Session.Translated(req).Some? && Session.Translated(req).value.FromIndex()
    ensures var shown := IndexReplay.ReplayOrder(keys, c, Session.Translated(req).value.seek);
            && shown == Ascending(Matching(keys, IndexPrefix(c)))
            && (shown == IndexReplay.ReplayOrder(keys, c, req.seekEntryID)
                <==> forall a :: a in keys && IndexPrefix(c) <= a ==> !Less(a, req.seekEntryID))
  {
    var bookmark, prefix := req.seekEntryID, IndexPrefix(c);
    IndexOptions(req);
    Bookmarks.BookmarkIsUnblocked(keys, c, bookmark);
    SeekInsideIsUnblocked(keys, [], prefix);
    IndexReplay.OrderIsAscending(keys, [], prefix);
    IndexReplay.OrderIsAscending(keys, bookmark, prefix);
    forall a | a in keys && prefix <= a ensures a in InRange(keys, [], prefix) {
      PrefixAtMost(prefix, a);
    }
    assert InRange(keys, [], prefix) == Matching(keys, prefix);
    forall a | a in keys && prefix <= a ensures a in InRange(keys, bookmark, prefix) <==> !Less(a, bookmark) {
      LessTotal(a, bookmark);
      LessAntisymmetric(a, bookmark);
    }
    if forall a :: a in keys && prefix <= a ==> !Less(a, bookmark) {
      assert InRange(keys, bookmark, prefix) == Matching(keys, prefix);
    }
  }

  lemma IndexOptions(req: Session.OpenReq)
    requires req.mode == Session.FromIndex
    ensures Session.Translated(req).Some? && Session.Translated(req).value.seek == []
    ensures Session.Translated(req).value.FromIndex()
  {
  }

  /** A client that asks to go on from its bookmark gets everything that arrived in earlier seconds
      once more, at the least. */
  lemma {:induction false} IndexModeRepeats(ops: seq<Op>, c: ChannelID, i: nat, j: nat, req: Session.OpenReq)
    requires AllLawful(ops) && Bookmarks.ClockRuns(ops, c) && i < |ops| && j < |ops|
    requires Bookmarks.Accepted(ops, i, c) && Bookmarks.Accepted(ops, j, c) && ops[i].seconds < ops[j].seconds
    requires EntryID(ops[i].entry).Some? && EntryID(ops[j].entry).Some?
    requires req.mode == Session.FromIndex && req.seekEntryID == Bookmarks.Bookmark(ops[j])
    ensures Session.Translated(req).Some?
    ensures var keys, earlier := ApplyAll(map[], ops).Keys, Bookmarks.Bookmark(ops[i]);
            && earlier in IndexReplay.ReplayOrder(keys, c, Session.Translated(req).value.seek)
            && earlier !in IndexReplay.ReplayOrder(keys, c, req.seekEntryID)
  {
    var keys := ApplyAll(map[], ops).Keys;
    Bookmarks.AcceptedStays(ops, i, c);
    Bookmarks.BookmarkResume(ops, c, j, i);
    IndexOptions(req);
    hide *;
    ArrivalIsReplayed(keys, c, Bookmarks.Bookmark(ops[i]));
  }

  lemma ArrivalIsReplayed(keys: set<Bytes>, c: ChannelID, a: Bytes)
    requires a in keys && StoreRuns.IsArrival(c, a)
    ensures a in IndexReplay.ReplayOrder(keys, c, [])
  {
    SeekInsideIsUnblocked(keys, [], IndexPrefix(c));
    IndexReplay.OrderIsAscending(keys, [], IndexPrefix(c));
    PrefixAtMost(IndexPrefix(c), a);
    assert a in InRange(keys, [], IndexPrefix(c));
  }

  /** Two appends in different seconds, and the request to go on from the second one's bookmark. */
  function TwoSeconds(c: ChannelID): seq<Op> {
    [Op.Append(c, IDOnly([2]), 5, NoFault), Op.Append(c, IDOnly([1]), 6, NoFault)]
  }

  function GoOn(c: ChannelID): Session.OpenReq {
    Session.OpenReq("feed", Session.FromIndex, ArrivalKey(c, [1], 6), 0, false)
  }

  /** The request gets the first entry again, of which its bookmark promised to be past. */
  lemma IndexModeRepeatsFirst(c: ChannelID)
    ensures Bookmarks.Accepted(TwoSeconds(c), 0, c) && Bookmarks.Accepted(TwoSeconds(c), 1, c)
    ensures var keys, opts := ApplyAll(map[], TwoSeconds(c)).Keys, Session.Translated(GoOn(c));
            && opts.Some?
            && ArrivalKey(c, [2], 5) in IndexReplay.ReplayOrder(keys, c, opts.value.seek)
            && ArrivalKey(c, [2], 5) !in IndexReplay.ReplayOrder(keys, c, GoOn(c).seekEntryID)
  {
    var ops := TwoSeconds(c);
    var none: seq<Op> := [];
    assert ops[..0] == none && ops[..1] == [ops[0]] && [ops[0]][..0] == none;
    assert ApplyAll(map[], ops[..1]) == Apply(map[], ops[0]);
    assert EntryID(IDOnly([2])) == Some([2]) && EntryID(IDOnly([1])) == Some([1]);
    Bookmarks.SmallerID();
    OtherSecondIsAccepted(c);
    hide Apply, ApplyAll, Outcome, ArrivalKey, Session.Translated, Pad;
    IndexModeRepeats(ops, c, 0, 1, GoOn(c));
  }

  lemma OtherSecondIsAccepted(c: ChannelID)
    ensures Outcome(map[], TwoSeconds(c)[0]).None?
    ensures Outcome(Apply(map[], TwoSeconds(c)[0]), TwoSeconds(c)[1]).None?
  {
    assert EntryID(IDOnly([2])) == Some([2]) && EntryID(IDOnly([1])) == Some([1]);
    Bookmarks.SmallerID();
    EntryKeyOrder(c, [1], [2]);
    IndexRoundTrip(c, [1], 6);
    KeyspacesPartition(EntryKey(c, [1]));
    IndexRoundTrip(c, [2], 5);
  }

  // ---------- Client and server ----------

  /** The requests of a client in the order of sending. */
  function Requests(out: seq<Client.Out>): (reqs: seq<Session.FeedReq>)
    ensures |reqs| == |out| && forall i :: 0 <= i < |out| ==> reqs[i] == out[i].req
  {
    seq(|out|, i requires 0 <= i < |out| => out[i].req)
  }

  /** However the server interleaves feeds, other writers and the requests of one client so far:
      when it handles the request that `CloseURI(u)` sends now, the stream that it takes away, if it
      is there, was made by the client's latest `OpenURI(u)`, for the channel of `u`, and is
      cancelled; all other streams stay. */
  lemma {:induction false} CloseRemovesOwnStream(hash: string -> ChannelID, db: Snapshot, calls: seq<Client.Call>,
                                                 es: seq<Session.Event>, u: string, seconds: Seconds, fault: Fault)
    requires Client.Bumps(calls) < 0x8000_0000 && u in Client.CalledAll(calls).reqMapping
    requires Session.Run(hash, Session.NewSession(db), es).handled <= Requests(Client.CalledAll(calls).out)
    ensures var client, s := Client.CalledAll(calls), Session.Run(hash, Session.NewSession(db), es);
            var out' := Client.Called(client, Client.CloseCall(u)).out;
            && |out'| == |client.out| + 1 && out'[|client.out|].req.CancelReq?
            && var k := out'[|client.out|].req.reqID;
            var s' := Session.Handled(hash, s, out'[|client.out|].req, seconds, fault).0;
            && Client.LatestOpen(client.out, u, k)
            && (k in s.streams ==>
                  IsStreamOf(s, k, hash(u)) && s.streams[k] < |s'.created| && s'.created[s.streams[k]].cancelled)
            && s'.streams == s.streams - {k} && s'.readers == s.readers
  {
    var client, s := Client.CalledAll(calls), Session.Run(hash, Session.NewSession(db), es);
    var k := client.reqMapping[u];
    Client.NumbersNeverRepeat(calls);
    Client.CloseCancelsLatest(calls, u);
    SessionRuns.FeedMessagesBelongToOpens(hash, db, es);
    assert Client.LatestOpen(client.out, u, k);
    assert exists i :: 0 <= i < |client.out| && Client.Opens(client.out[i], u);
    assert Client.Called(client, Client.CloseCall(u)).out[|client.out|].req == Session.CancelReq(k);
    HandledCancels(hash, s, k, seconds, fault);
    hide *;
    if k in s.streams {
      var c := StreamWasOpened(hash, s, k);
      OpenHasOneNumber(hash, client, s.handled, u, c);
    }
    CancelTakesOne(hash, s, k);
  }

  lemma HandledCancels(hash: string -> ChannelID, s: Session.Session, k: ReqID, seconds: Seconds, fault: Fault)
    ensures Session.Handled(hash, s, Session.CancelReq(k), seconds, fault).0 == Session.Cancelled(s, k)
  {
  }

  /** Under `k` there is a stream with that ID for channel `c`. */
  predicate IsStreamOf(s: Session.Session, k: ReqID, c: ChannelID) {
    k in s.streams && s.streams[k] < |s.created|
    && s.created[s.streams[k]].id == k && s.created[s.streams[k]].channel == c
  }

  lemma StreamWasOpened(hash: string -> ChannelID, s: Session.Session, k: ReqID) returns (c: ChannelID)
    requires SessionRuns.StreamsOK(hash, s) && k in s.streams
    ensures IsStreamOf(s, k, c)
    ensures exists i :: 0 <= i < |s.handled| && SessionRuns.IsOpenOf(hash, s.handled[i], k, c)
  {
    c := s.created[s.streams[k]].channel;
    hide SessionRuns.IsOpenOf;
    assert SessionRuns.WasOpened(hash, s, s.created[s.streams[k]].id, c);
  }

  lemma CancelTakesOne(hash: string -> ChannelID, s: Session.Session, k: ReqID)
    requires SessionRuns.StreamsOK(hash, s)
    ensures var s' := Session.Cancelled(s, k);
            && s'.streams == s.streams - {k} && s'.readers == s.readers
            && (k in s.streams ==> s.streams[k] < |s'.created| && s'.created[s.streams[k]].cancelled)
  {
    hide SessionRuns.WasOpened;
  }

  lemma OpenHasOneNumber(hash: string -> ChannelID, client: Client.State, handled: seq<Session.FeedReq>,
                         u: string, c: ChannelID)
    requires Client.NumbersOK(client) && u in client.reqMapping && handled <= Requests(client.out)
    requires exists i :: 0 <= i < |handled| && SessionRuns.IsOpenOf(hash, handled[i], client.reqMapping[u], c)
    ensures c == hash(u)
  {
    var k := client.reqMapping[u];
    var i :| 0 <= i < |handled| && SessionRuns.IsOpenOf(hash, handled[i], k, c);
    assert handled[i] == Requests(client.out)[i] == client.out[i].req;
    assert client.out[i].New?;
    assert Client.LatestOpen(client.out, u, k);
    var j :| 0 <= j < |client.out| && Client.Opens(client.out[j], u) && client.out[j].req.reqID == k;
    assert i == j;
  }

  // ---------- Clock and feed order ----------

  /** The ID was made at the given clock reading. */
  predicate MadeAt(id: Bytes, s: Seconds, ns: Timestamps.Nanos) {
    |id| == ID_SIZE && id[..8] == BigEndian(8, Timestamps.Timestamp(s, ns)) && 0 <= s < 0x8000_0000_0000
  }

  /** Every entry of the channel has an ID made before that reading: in an earlier second, or
      16384 nanoseconds earlier. */
  ghost predicate AllMadeBefore(db: Snapshot, c: ChannelID, s: Seconds, ns: Timestamps.Nanos) {
    forall k :: k in db && EntryPrefix(c) <= k ==>
      exists t: Seconds, ms: Timestamps.Nanos ::
        |k| == ENTRY_KEY_SIZE && MadeAt(EntryIDFromKey(k), t, ms) && (t < s || (t == s && ms + 0x4000 <= ns))
  }

  /** Appending an entry with a new ID from a clock that has moved on is the increasing order that
      the live feed's guarantees ask for. */
  lemma {:induction false} NewIDsArriveInOrder(db: Snapshot, c: ChannelID, entry: Msg, seconds: Seconds, fault: Fault,
                            s: Seconds, ns: Timestamps.Nanos)
    requires EntryID(entry).Some? && MadeAt(EntryID(entry).value, s, ns) && AllMadeBefore(db, c, s, ns)
    ensures AtTheEnd(db, EntryPrefix(c), Op.Append(c, entry, seconds, fault))
  {
    var id, op := EntryID(entry).value, Op.Append(c, entry, seconds, fault);
    IndexRoundTrip(c, id, seconds);
    KeyspacesPartition(ArrivalKey(c, id, seconds));
    forall k, x | k in Matching(Written(db, op), EntryPrefix(c)) && x in db && EntryPrefix(c) <= x ensures Less(x, k) {
      assert k == EntryKey(c, id);
      var t: Seconds, ms: Timestamps.Nanos :|
        |x| == ENTRY_KEY_SIZE && MadeAt(EntryIDFromKey(x), t, ms) && (t < s || (t == s && ms + 0x4000 <= ns));
      EarlierIDIsLess(c, x, t, ms, id, s, ns);
    }
  }

  lemma EarlierIDIsLess(c: ChannelID, x: Bytes, t: Seconds, ms: Timestamps.Nanos, id: Bytes, s: Seconds, ns: Timestamps.Nanos)
    requires EntryPrefix(c) <= x && |x| == ENTRY_KEY_SIZE && MadeAt(EntryIDFromKey(x), t, ms) && MadeAt(id, s, ns)
    requires t < s || (t == s && ms + 0x4000 <= ns)
    ensures Less(x, EntryKey(c, id))
  {
    var earlier := EntryIDFromKey(x);
    Timestamps.IDsSortByTime(t, ms, s, ns, earlier[8..], id[8..]);
    assert earlier == BigEndian(8, Timestamps.Timestamp(t, ms)) + earlier[8..];
    assert id == BigEndian(8, Timestamps.Timestamp(s, ns)) + id[8..];
    assert x == EntryKey(c, earlier);
    EntryKeyOrder(c, earlier, id);
  }
}

/** What a client can rely on over whole runs of a connection, from the stored entry to the message
    that arrives. */
module VaultRuns {
  import opened ByteStrings
  import opened Database
  import opened Keys
  import opened Messages
  import opened StreamOptions
  import opened Transactions
  import opened Vault
  import Bookmarks
  import Cancellation
  import Projection
  import ReaderInvariant
  import SessionRuns
  import StoreRuns
  import Wakeup

  // ---------- One reader ----------

  /** A live reader has come from a new subscription to its channel, on the database of that moment,
      by the run that its history tells. */
  ghost predicate Lived(w: Reader.World, origin: Reader.World, events: seq<Reader.Event>, c: ChannelID) {
    && origin == NewWorld(c, w.r.opts, origin.db, origin.watching) && StoreRuns.Consistent(origin.db)
    && Reader.LawfulRun(events) && w == Reader.Run(origin, events) && !w.r.opts.FromIndex()
  }

  ghost predicate FeederOK(f: Feeder, c: ChannelID, db: Snapshot) {
    match f
    case Live(w, origin, events, _) => w.db == db && w.prefix == EntryPrefix(c) && Lived(w, origin, events, c)
    case Replay(opts, begun, view, out, cancelled, done) =>
      && opts.FromIndex() && |out| <= opts.max && begun.Keys <= db.Keys
      && if view.None? then out == [] && !done else ReplayOK(f, view.value, c, db)
  }

  /** A replay shows, from a snapshot that has all that was there when it was started, the first of its
      keys in order; and once it is done, unless it was cancelled, as many as the limit allows. */
  ghost predicate ReplayOK(f: Feeder, view: Snapshot, c: ChannelID, db: Snapshot)
    requires f.Replay?
  {
    && StoreRuns.Consistent(view) && Projection.SameEntries(view, db, EntryPrefix(c)) && f.begun.Keys <= view.Keys
    && IndexReplay.Shows(f.out, IndexReplay.ReplayOrder(view.Keys, c, f.opts.seek), f.opts.KeysOnly(), view, c)
    && (f.done && !f.cancelled ==> |f.out| == IndexReplay.KeysInReach(view, c, f.opts))
  }

  /** The message for the entry under `k`: its ID alone, or the message stored. */
  predicate IsMessageOf(m: Msg, keysOnly: bool, c: ChannelID, db: Snapshot, k: Bytes) {
    && k in db && EntryPrefix(c) <= k && db[k].Stored?
    && m == if keysOnly then IDOnly(k[PREFIX_SIZE..]) else db[k].msg
  }

  /** The message is an entry of the channel, or under keys-only its ID. */
  ghost predicate IsEntry(m: Msg, keysOnly: bool, c: ChannelID, db: Snapshot) {
    exists k :: IsMessageOf(m, keysOnly, c, db, k)
  }

  lemma RenderedIsMessage(db: Snapshot, c: ChannelID, k: Bytes, keysOnly: bool)
    requires StoreRuns.Consistent(db) && k in db && EntryPrefix(c) <= k
    ensures IsMessageOf(Reader.Rendered(keysOnly, db, k), keysOnly, c, db, k)
  {
    assert StoreRuns.EntriesCarryIDs(db, c);
  }

  lemma LivedStep(w: Reader.World, origin: Reader.World, events: seq<Reader.Event>, c: ChannelID, e: Reader.Event)
    requires Lived(w, origin, events, c) && (e.Write? ==> Lawful(e.op))
    ensures Lived(Reader.Step(w, e), origin, events + [e], c) && Reader.Step(w, e).prefix == w.prefix
    ensures Reader.Step(w, e).r.opts == w.r.opts && (Reader.Step(w, e).cancelled <==> w.cancelled || e.Cancel?)
  {
    hide Reader.Run, Reader.Step, StoreRuns.Consistent, NewWorld;
    ReaderInvariant.StepFrame(w, e);
    Wakeup.RunSnoc(origin, events, e);
  }

  lemma LivedIsInitial(w: Reader.World, origin: Reader.World, events: seq<Reader.Event>, c: ChannelID)
    requires Lived(w, origin, events, c)
    ensures Reader.Initial(origin, w.r.opts) && origin.resets == [] && origin.prefix == EntryPrefix(c)
  {
  }

  lemma TouchKeepsFeeder(f: Feeder, c: ChannelID, db: Snapshot, e: Reader.Event)
    requires FeederOK(f, c, db) && !e.Move? && (e.Write? ==> Lawful(e.op))
    ensures FeederOK(Touched(f, e), c, if e.Write? then Apply(db, e.op) else db)
    ensures Touched(f, e).Options() == f.Options() && Touched(f, e).Sent() == f.Sent()
    ensures Touched(f, e).Stopped() <==> f.Stopped() || e.Cancel?
  {
    hide Lived, Apply, Outcome, StoreRuns.Consistent, IndexReplay.Shows, IndexReplay.ReplayOrder, IndexReplay.KeysInReach;
    if f.Live? {
      LivedStep(f.w, f.origin, f.events, c, e);
    } else if e.Write? {
      Projection.WriteKeepsEntries(db, e.op, EntryPrefix(c));
      KeysStay(db, e.op);
    }
  }

  lemma KeysStay(db: Snapshot, op: Op)
    ensures db.Keys <= Apply(db, op).Keys
  {
  }

  lemma SelectPublishesNothing(w: Reader.World, pick: Reader.Pick)
    requires w.r.phase.Iterating?
    ensures Reader.Select(w, pick, w.r.phase.view).r.out == w.r.out
  {
    hide Reader.SeekOf;
  }

  lemma AdvancePublishesAtMostOne(r: Reader.ReaderState, prefix: Reader.Prefix)
    requires r.phase.Iterating?
    ensures var out := Reader.Advance(r, prefix).out;
            out == r.out || (|out| == |r.out| + 1 && out[..|r.out|] == r.out)
  {
    hide Reader.Rendered;
  }

  /** A move publishes at most one message. */
  lemma MovePublishesAtMostOne(w: Reader.World, pick: Reader.Pick)
    ensures var out := Reader.Moved(w, pick).r.out;
            out == w.r.out || (|out| == |w.r.out| + 1 && out[..|w.r.out|] == w.r.out)
  {
    hide Reader.SeekOf, Landing, Reader.Advance, Reader.Select;
    match w.r.phase
    case Iterating(_, _) =>
      SelectPublishesNothing(w, pick);
      AdvancePublishesAtMostOne(w.r, w.prefix);
    case _ =>
  }

  lemma MoveKeepsFeeder(f: Feeder, c: ChannelID, db: Snapshot, pick: Reader.Pick)
    requires FeederOK(f, c, db) && StoreRuns.Consistent(db)
    ensures var f' := Moved(f, c, db, pick);
            && FeederOK(f', c, db) && f'.Options() == f.Options() && f'.Stopped() == f.Stopped()
            && (f'.Sent() == f.Sent()
                || (!f.Stopped() && |f'.Sent()| == |f.Sent()| + 1 && f'.Sent()[..|f.Sent()|] == f.Sent()))
  {
    hide Lived, StoreRuns.Consistent, IndexReplay.ReplayOrder;
    match f
    case Live(w, origin, events, _) =>
      LivedStep(w, origin, events, c, Reader.Move(pick));
      Projection.MovesKeepDatabase(w, Reader.Move(pick));
      MovePublishesAtMostOne(w, pick);
      if w.cancelled {
        Cancellation.CancelledMove(w, pick);
      }
      hide Reader.Moved;
    case Replay(_, _, view, _, _, _) =>
      if view.Some? {
        ReplayMoveIsOK(f, c, db, pick);
      }
  }

  lemma ReplayMoveIsOK(f: Feeder, c: ChannelID, db: Snapshot, pick: Reader.Pick)
    requires FeederOK(f, c, db) && f.Replay? && f.view.Some?
    ensures var f' := Moved(f, c, db, pick);
            && FeederOK(f', c, db) && f'.opts == f.opts && f'.cancelled == f.cancelled && f'.Replay?
            && (f'.out == f.out || (!f.cancelled && |f'.out| == |f.out| + 1 && f'.out[..|f.out|] == f.out))
  {
    var view := f.view.value;
    NextIsShowable(f, view, c);
    hide StoreRuns.Consistent, IndexReplay.ReplayOrder, IndexReplay.ShowsKey, Projection.SameEntries, EntryKeyFromIndex;
    var f' := Moved(f, c, db, pick);
    if f'.out != f.out {
      var order := IndexReplay.ReplayOrder(view.Keys, c, f.opts.seek);
      IndexReplay.ShowsOneMore(f.out, f'.out[|f.out|], order, f.opts.KeysOnly(), view, c);
      assert f'.out == f.out + [f'.out[|f.out|]];
    }
  }

  /** In a consistent snapshot no key of the order is in the way. */
  lemma NextIsShowable(f: Feeder, view: Snapshot, c: ChannelID)
    requires f.Replay? && StoreRuns.Consistent(view)
    ensures var order := IndexReplay.ReplayOrder(view.Keys, c, f.opts.seek);
            |f.out| < |order| ==>
              && |order[|f.out|]| >= 39 && EntryKeyFromIndex(c, order[|f.out|]) in view
              && IndexReplay.ShowsKey(IndexReplay.Replayed(f.opts.KeysOnly(), view, c, order[|f.out|]),
                                      order[|f.out|], f.opts.KeysOnly(), view, c)
  {
    assert StoreRuns.IndexAgrees(view, c);
    Bookmarks.IndexNeverDangles(view, c, f.opts.seek);
    hide StoreRuns.Consistent, StoreRuns.IndexAgrees, IndexReplay.ReplayOrder, IndexReplay.Sliceable, EntryKeyFromIndex;
    var order := IndexReplay.ReplayOrder(view.Keys, c, f.opts.seek);
    if |f.out| < |order| {
      assert order[|f.out|] in order;
    }
  }

  /** Everything a reader has published is an entry of its channel as the database has it now. */
  lemma SentAreEntries(f: Feeder, c: ChannelID, db: Snapshot, j: nat)
    requires FeederOK(f, c, db) && StoreRuns.Consistent(db) && j < |f.Sent()|
    ensures IsEntry(f.Sent()[j], f.Options().KeysOnly(), c, db)
  {
    match f
    case Live(w, origin, events, _) =>
      LivedIsInitial(w, origin, events, c);
      Projection.StreamShowsEntries(origin, w.r.opts, events);
      var k := Projection.AllKeys(w.r)[j];
      hide Reader.Rendered, IsMessageOf, StoreRuns.Consistent;
      RenderedIsMessage(db, c, k, w.r.opts.KeysOnly());
    case Replay(opts, _, view, out, _, _) =>
      ShownIsEntry(out[j], opts, view.value, c, db, j, out);
  }

  lemma ShownIsEntry(m: Msg, opts: StreamOpts, view: Snapshot, c: ChannelID, db: Snapshot, j: nat, out: seq<Msg>)
    requires StoreRuns.Consistent(view) && Projection.SameEntries(view, db, EntryPrefix(c))
    requires j < |out| && out[j] == m
    requires IndexReplay.Shows(out, IndexReplay.ReplayOrder(view.Keys, c, opts.seek), opts.KeysOnly(), view, c)
    ensures IsEntry(m, opts.KeysOnly(), c, db)
  {
    var a := IndexReplay.ReplayOrder(view.Keys, c, opts.seek)[j];
    Bookmarks.OrderedKeysAreArrivals(view, c, opts.seek);
    assert StoreRuns.IndexAgrees(view, c);
    var k := EntryKeyFromIndex(c, a);
    assert k in view && EntryPrefix(c) <= k;
    assert IndexReplay.ShowsKey(m, a, opts.KeysOnly(), view, c);
    assert EntryIDFromKey(k) == EntryIDFromIndex(a);
    assert StoreRuns.EntriesCarryIDs(view, c);
    assert IsMessageOf(m, opts.KeysOnly(), c, db, k);
  }

  // ---------- Readers and messages in their session ----------

  /** A request of the connection opened `c` under `k`, and asked for these options. */
  ghost predicate OpenedWith(hash: string -> ChannelID, s: Session.Session, k: ReqID, c: ChannelID, opts: StreamOpts) {
    exists i :: 0 <= i < |s.handled| && SessionRuns.IsOpenOf(hash, s.handled[i], k, c)
                && Session.Translated(s.handled[i].open.value) == Some(opts)
  }

  ghost predicate ReaderOK(hash: string -> ChannelID, s: Session.Session, f: Feeder, c: ChannelID)
    requires c in s.readers
  {
    var n := s.readers[c];
    && n < |s.created| && FeederOK(f, c, s.db) && OpenedWith(hash, s, s.created[n].id, c, f.Options())
    && (s.created[n].cancelled ==> f.Stopped())
    && (f.Stopped() ==> s.created[n].cancelled || s.status != Session.Serving)
  }

  /** Every reader of the connection is in order. */
  ghost predicate ReadersOK(hash: string -> ChannelID, s: Session.Session, feeders: map<ChannelID, Feeder>) {
    feeders.Keys == s.readers.Keys && forall c :: c in feeders ==> ReaderOK(hash, s, feeders[c], c)
  }

  /** A feed message comes from a stream with its ID on its channel, which some request opened, and
      is an entry of that channel in the form that the request asked for. */
  ghost predicate FeedOK(hash: string -> ChannelID, s: Session.Session, source: Option<nat>, m: Session.Sent) {
    && source.Some? && source.value < |s.created|
    && s.created[source.value].id == m.msg.reqID && m.Feed? && s.created[source.value].channel == m.channel
    && exists opts, e ::
         OpenedWith(hash, s, m.msg.reqID, m.channel, opts)
         && IsEntry(e, opts.KeysOnly(), m.channel, s.db) && m.msg == e.(reqID := m.msg.reqID)
  }

  ghost predicate VaultOK(hash: string -> ChannelID, v: State) {
    && SessionRuns.StreamsOK(hash, v.s) && StoreRuns.Consistent(v.s.db) && ReadersOK(hash, v.s, v.feeders)
    && |v.sources| == |v.s.sent|
    && (forall j :: 0 <= j < |v.s.sent| && v.s.sent[j].Feed? ==> FeedOK(hash, v.s, v.sources[j], v.s.sent[j]))
  }

  /** What nothing takes back: requests handled, streams made, cancellations, entries. */
  ghost predicate Grown(s: Session.Session, s': Session.Session) {
    && s.handled <= s'.handled && |s.created| <= |s'.created|
    && (s.status != Session.Serving ==> s'.status != Session.Serving)
    && (forall n :: 0 <= n < |s.created| ==>
          && s'.created[n].id == s.created[n].id && s'.created[n].channel == s.created[n].channel
          && (s.created[n].cancelled ==> s'.created[n].cancelled))
    && (forall c: ChannelID :: Projection.SameEntries(s.db, s'.db, EntryPrefix(c)))
  }

  lemma OpenedStays(hash: string -> ChannelID, s: Session.Session, s': Session.Session, k: ReqID, c: ChannelID,
                    opts: StreamOpts)
    requires OpenedWith(hash, s, k, c, opts) && s.handled <= s'.handled
    ensures OpenedWith(hash, s', k, c, opts)
  {
    var i :| 0 <= i < |s.handled| && SessionRuns.IsOpenOf(hash, s.handled[i], k, c)
             && Session.Translated(s.handled[i].open.value) == Some(opts);
    assert s'.handled[i] == s.handled[i];
  }

  lemma EntryStays(m: Msg, keysOnly: bool, c: ChannelID, db: Snapshot, db': Snapshot)
    requires IsEntry(m, keysOnly, c, db) && Projection.SameEntries(db, db', EntryPrefix(c))
    ensures IsEntry(m, keysOnly, c, db')
  {
    var k :| IsMessageOf(m, keysOnly, c, db, k);
    assert IsMessageOf(m, keysOnly, c, db', k);
  }

  lemma FeedStays(hash: string -> ChannelID, s: Session.Session, s': Session.Session, source: Option<nat>, m: Session.Sent)
    requires FeedOK(hash, s, source, m) && Grown(s, s')
    ensures FeedOK(hash, s', source, m)
  {
    var opts, e :|
      OpenedWith(hash, s, m.msg.reqID, m.channel, opts)
      && IsEntry(e, opts.KeysOnly(), m.channel, s.db) && m.msg == e.(reqID := m.msg.reqID);
    hide OpenedWith, IsEntry;
    OpenedStays(hash, s, s', m.msg.reqID, m.channel, opts);
    EntryStays(e, opts.KeysOnly(), m.channel, s.db, s'.db);
  }

  /** A reader stays in order if what happens to it and to its stream is in order. */
  lemma ReaderStays(hash: string -> ChannelID, s: Session.Session, s': Session.Session, f: Feeder, f': Feeder, c: ChannelID)
    requires c in s.readers && ReaderOK(hash, s, f, c) && Grown(s, s')
    requires c in s'.readers && s'.readers[c] == s.readers[c]
    requires FeederOK(f', c, s'.db) && f'.Options() == f.Options()
    requires s'.created[s.readers[c]].cancelled ==> f'.Stopped()
    requires f'.Stopped() ==> f.Stopped() || s'.created[s.readers[c]].cancelled || s'.status != Session.Serving
    ensures ReaderOK(hash, s', f', c)
  {
    hide FeederOK, OpenedWith;
    OpenedStays(hash, s, s', s.created[s.readers[c]].id, c, f.Options());
  }

  // ---------- What a session step does ----------

  lemma SessionGrows(hash: string -> ChannelID, s: Session.Session, e: Session.Event)
    requires e.OtherWrite? ==> Lawful(e.op)
    ensures Grown(s, Session.Step(hash, s, e))
  {
    hide Apply, Outcome, Session.Translated;
    match e
    case Receive(req, seconds, fault) => ReceiveGrows(hash, s, req, seconds, fault);
    case OtherWrite(op) =>
      forall c: ChannelID ensures Projection.SameEntries(s.db, Apply(s.db, op), EntryPrefix(c)) {
        Projection.WriteKeepsEntries(s.db, op, EntryPrefix(c));
      }
    case _ =>
  }

  lemma ReceiveGrows(hash: string -> ChannelID, s: Session.Session, req: Session.FeedReq, seconds: Seconds, fault: Fault)
    ensures Grown(s, Session.Step(hash, s, Session.Receive(req, seconds, fault)))
  {
    hide Apply, Outcome, Session.Translated, ReturnedKey;
    var op := WriteOf(hash, req, seconds, fault);
    if op.Some? {
      forall c: ChannelID ensures Projection.SameEntries(s.db, Apply(s.db, op.value), EntryPrefix(c)) {
        Projection.WriteKeepsEntries(s.db, op.value, EntryPrefix(c));
      }
    }
    ReceiveWrites(hash, s, req, seconds, fault);
    hide WriteOf, Session.Appended;
  }

  lemma ReceiveWrites(hash: string -> ChannelID, s: Session.Session, req: Session.FeedReq, seconds: Seconds, fault: Fault)
    ensures var op := WriteOf(hash, req, seconds, fault);
            Session.Step(hash, s, Session.Receive(req, seconds, fault)).db ==
            if s.status == Session.Serving && s.pending.None? && op.Some? then Apply(s.db, op.value) else s.db
  {
    hide Apply, Outcome, Session.Translated, ReturnedKey;
  }

  /** A handled request makes at most one reader, for the channel it opens, and cancels the stream
      of a reader only when that reader is told. */
  lemma ReceiveActs(hash: string -> ChannelID, s: Session.Session, req: Session.FeedReq, seconds: Seconds, fault: Fault)
    requires s.status == Session.Serving && s.pending.None? && SessionRuns.StreamsOK(hash, s)
    ensures var s', c := Session.Step(hash, s, Session.Receive(req, seconds, fault)), OpenOf(hash, req);
            && s'.sent == s.sent
            && s'.readers == (if c.Some? && c.value !in s.readers && Session.Translated(req.open.value).Some?
                              then s.readers[c.value := |s.created|] else s.readers)
            && (c.Some? ==> s'.handled == s.handled + [req]
                            && s'.created == s.created + [Session.Stream(req.reqID, c.value, false)])
            && (forall d :: d in s.readers && s'.created[s.readers[d]].cancelled ==>
                 s.created[s.readers[d]].cancelled || Effect(hash, s, req, seconds, fault, d) == Some(Reader.Cancel))
            && forall d :: d in s.readers && Effect(hash, s, req, seconds, fault, d) == Some(Reader.Cancel) ==>
                 s'.created[s.readers[d]].cancelled
  {
    hide Session.Appended, Session.Translated, SessionRuns.WasOpened;
  }

  // ---------- Every step keeps readers and messages in order ----------

  lemma NewFeederIsOK(c: ChannelID, opts: StreamOpts, db: Snapshot, watching: bool, since: nat)
    requires StoreRuns.Consistent(db)
    ensures var f := NewFeeder(c, opts, db, watching, since);
            FeederOK(f, c, db) && f.Options() == opts && !f.Stopped()
  {
    hide StoreRuns.Consistent;
  }

  /** The reader after what a request does to it, if anything. */
  ghost function After(hash: string -> ChannelID, s: Session.Session, req: Session.FeedReq, seconds: Seconds,
                       fault: Fault, f: Feeder, c: ChannelID): Feeder
  {
    var effect := Effect(hash, s, req, seconds, fault, c);
    if effect.Some? then Touched(f, effect.value) else f
  }

  lemma EffectKeepsFeeder(hash: string -> ChannelID, s: Session.Session, req: Session.FeedReq, seconds: Seconds,
                          fault: Fault, f: Feeder, c: ChannelID)
    requires FeederOK(f, c, s.db)
    ensures var f', op := After(hash, s, req, seconds, fault, f, c), WriteOf(hash, req, seconds, fault);
            && FeederOK(f', c, if op.Some? then Apply(s.db, op.value) else s.db)
            && f'.Options() == f.Options()
            && (f'.Stopped() <==> f.Stopped() || Effect(hash, s, req, seconds, fault, c) == Some(Reader.Cancel))
  {
    hide FeederOK, Touched, Session.Translated, Apply, Outcome, OpenOf;
    var effect := Effect(hash, s, req, seconds, fault, c);
    if effect.Some? {
      TouchKeepsFeeder(f, c, s.db, effect.value);
    }
  }

  lemma EffectKeepsReader(hash: string -> ChannelID, s: Session.Session, req: Session.FeedReq, seconds: Seconds,
                          fault: Fault, f: Feeder, c: ChannelID)
    requires s.status == Session.Serving && s.pending.None? && SessionRuns.StreamsOK(hash, s)
    requires c in s.readers && ReaderOK(hash, s, f, c)
    ensures var s' := Session.Step(hash, s, Session.Receive(req, seconds, fault));
            c in s'.readers && ReaderOK(hash, s', After(hash, s, req, seconds, fault, f, c), c)
  {
    hide Session.Step, WriteOf, OpenOf, FeederOK, OpenedWith, Touched, Grown, After, Effect, SessionRuns.StreamsOK,
         Session.Translated, Apply, Outcome;
    var se := Session.Receive(req, seconds, fault);
    var s', f' := Session.Step(hash, s, se), After(hash, s, req, seconds, fault, f, c);
    SessionGrows(hash, s, se);
    ReceiveActs(hash, s, req, seconds, fault);
    ReceiveWrites(hash, s, req, seconds, fault);
    EffectKeepsFeeder(hash, s, req, seconds, fault, f, c);
    assert s'.readers[c] == s.readers[c];
    ReaderStays(hash, s, s', f, f', c);
  }

  lemma NewReaderIsOK(hash: string -> ChannelID, s: Session.Session, watchers: set<ChannelID>, req: Session.FeedReq,
                      seconds: Seconds, fault: Fault)
    requires s.status == Session.Serving && s.pending.None?
    requires SessionRuns.StreamsOK(hash, s) && StoreRuns.Consistent(s.db)
    requires OpenOf(hash, req).Some? && OpenOf(hash, req).value !in s.readers
    requires Session.Translated(req.open.value).Some?
    ensures var s', c := Session.Step(hash, s, Session.Receive(req, seconds, fault)), OpenOf(hash, req).value;
            c in s'.readers
            && ReaderOK(hash, s', NewFeeder(c, Session.Translated(req.open.value).value, s.db, c in watchers, |s.resets|), c)
  {
    hide Session.Step, NewFeeder, FeederOK, SessionRuns.StreamsOK, StoreRuns.Consistent, Session.Translated, Effect,
         Apply, Outcome;
    var s', c := Session.Step(hash, s, Session.Receive(req, seconds, fault)), OpenOf(hash, req).value;
    var opts := Session.Translated(req.open.value).value;
    ReceiveActs(hash, s, req, seconds, fault);
    ReceiveWrites(hash, s, req, seconds, fault);
    NewFeederIsOK(c, opts, s.db, c in watchers, |s.resets|);
    assert s'.readers[c] == |s.created| && s'.db == s.db;
    assert SessionRuns.IsOpenOf(hash, s'.handled[|s.handled|], req.reqID, c);
    assert OpenedWith(hash, s', req.reqID, c, opts);
  }

  lemma RequestKeepsReaders(hash: string -> ChannelID, v: State, req: Session.FeedReq, seconds: Seconds, fault: Fault)
    requires v.s.status == Session.Serving && v.s.pending.None?
    requires SessionRuns.StreamsOK(hash, v.s) && StoreRuns.Consistent(v.s.db) && ReadersOK(hash, v.s, v.feeders)
    ensures ReadersOK(hash, Session.Step(hash, v.s, Session.Receive(req, seconds, fault)),
                      AfterRequest(hash, v, req, seconds, fault))
  {
    hide Session.Step, ReaderOK, Effect, NewFeeder, Touched, OpenOf, Session.Translated, SessionRuns.StreamsOK,
         StoreRuns.Consistent;
    var s', feeders := Session.Step(hash, v.s, Session.Receive(req, seconds, fault)),
                       AfterRequest(hash, v, req, seconds, fault);
    ReceiveActs(hash, v.s, req, seconds, fault);
    assert feeders.Keys == s'.readers.Keys;
    forall c | c in feeders ensures ReaderOK(hash, s', feeders[c], c) {
      if c in v.feeders {
        EffectKeepsReader(hash, v.s, req, seconds, fault, v.feeders[c], c);
      } else {
        NewReaderIsOK(hash, v.s, v.watchers, req, seconds, fault);
      }
    }
  }

  /** The messages stay in order when a step adds none, or one that is in order itself. */
  lemma MessagesStay(hash: string -> ChannelID, v: State, v': State)
    requires VaultOK(hash, v) && Grown(v.s, v'.s)
    requires SessionRuns.StreamsOK(hash, v'.s) && StoreRuns.Consistent(v'.s.db) && ReadersOK(hash, v'.s, v'.feeders)
    requires |v.s.sent| <= |v'.s.sent| <= |v.s.sent| + 1 && v.s.sent <= v'.s.sent
    requires v.sources <= v'.sources && |v'.sources| - |v.sources| == |v'.s.sent| - |v.s.sent|
    requires var j := |v.s.sent|; |v'.s.sent| > j && v'.s.sent[j].Feed? ==> FeedOK(hash, v'.s, v'.sources[j], v'.s.sent[j])
    ensures VaultOK(hash, v')
  {
    hide ReadersOK, FeedOK, Grown, SessionRuns.StreamsOK, StoreRuns.Consistent;
    forall j | 0 <= j < |v'.s.sent| && v'.s.sent[j].Feed? ensures FeedOK(hash, v'.s, v'.sources[j], v'.s.sent[j]) {
      if j < |v.s.sent| {
        FeedStays(hash, v.s, v'.s, v.sources[j], v.s.sent[j]);
      }
    }
  }

  lemma SurroundingsKeepReader(hash: string -> ChannelID, s: Session.Session, s': Session.Session, f: Feeder,
                               c: ChannelID, e: Reader.Event)
    requires c in s.readers && ReaderOK(hash, s, f, c) && Grown(s, s')
    requires c in s'.readers && s'.readers[c] == s.readers[c] && s'.created == s.created
    requires e.Cancel? ==> s'.status != Session.Serving
    requires !e.Move? && (e.Write? ==> Lawful(e.op)) && s'.db == if e.Write? then Apply(s.db, e.op) else s.db
    ensures ReaderOK(hash, s', Touched(f, e), c)
  {
    hide FeederOK, OpenedWith, Touched, Grown, Apply, Outcome;
    TouchKeepsFeeder(f, c, s.db, e);
    ReaderStays(hash, s, s', f, Touched(f, e), c);
  }

  lemma IdleKeepsReader(hash: string -> ChannelID, s: Session.Session, s': Session.Session, f: Feeder, c: ChannelID)
    requires c in s.readers && ReaderOK(hash, s, f, c) && Grown(s, s')
    requires c in s'.readers && s'.readers[c] == s.readers[c] && s'.created == s.created && s'.db == s.db
    ensures ReaderOK(hash, s', f, c)
  {
    hide FeederOK, OpenedWith, Grown;
    ReaderStays(hash, s, s', f, f, c);
  }

  lemma MoveKeepsReader(hash: string -> ChannelID, s: Session.Session, s': Session.Session, f: Feeder, c: ChannelID,
                        pick: Reader.Pick)
    requires c in s.readers && ReaderOK(hash, s, f, c) && StoreRuns.Consistent(s.db) && Grown(s, s')
    requires s'.readers == s.readers && s'.created == s.created && s'.db == s.db
    ensures ReaderOK(hash, s', Moved(f, c, s.db, pick), c)
  {
    hide FeederOK, OpenedWith, Grown, Moved, StoreRuns.Consistent;
    MoveKeepsFeeder(f, c, s.db, pick);
    ReaderStays(hash, s, s', f, Moved(f, c, s.db, pick), c);
  }

  /** What happens around the readers keeps them in order; so does a reader's exit. */
  lemma OthersKeepReaders(hash: string -> ChannelID, v: State, e: Event)
    requires ReadersOK(hash, v.s, v.feeders) && !e.Request? && !e.Move? && (e.OtherWrite? ==> Lawful(e.op))
    requires Grown(v.s, Step(hash, v, e).s)
    ensures ReadersOK(hash, Step(hash, v, e).s, Feeders(hash, v, e))
  {
    hide ReaderOK, Touched, Grown, Apply, Outcome;
    var s', feeders := Step(hash, v, e).s, Feeders(hash, v, e);
    assert feeders.Keys == s'.readers.Keys;
    forall c | c in feeders ensures ReaderOK(hash, s', feeders[c], c) {
      match e
      case OtherWrite(op) => SurroundingsKeepReader(hash, v.s, s', v.feeders[c], c, Reader.Write(op));
      case Disconnect => SurroundingsKeepReader(hash, v.s, s', v.feeders[c], c, Reader.Cancel);
      case Register(d) =>
        if c == d { SurroundingsKeepReader(hash, v.s, s', v.feeders[c], c, Reader.Register); }
      case Broadcast(d, n) =>
        if c == d { SurroundingsKeepReader(hash, v.s, s', v.feeders[c], c, Reader.Broadcast(n)); }
      case SendReply => IdleKeepsReader(hash, v.s, s', v.feeders[c], c);
      case Exit(_) => IdleKeepsReader(hash, v.s, s', v.feeders[c], c);
      case Request(_, _, _) =>
      case Move(_, _) =>
    }
  }

  /** A message that a reader publishes is in order. */
  lemma PublishedIsOK(hash: string -> ChannelID, s: Session.Session, f: Feeder, c: ChannelID, pick: Reader.Pick)
    requires SessionRuns.StreamsOK(hash, s) && StoreRuns.Consistent(s.db) && c in s.readers && ReaderOK(hash, s, f, c)
    requires Moved(f, c, s.db, pick).Sent() != f.Sent()
    ensures var out, n := Moved(f, c, s.db, pick).Sent(), s.readers[c];
            && out != [] && !f.Stopped() && n < |s.created| && !s.created[n].cancelled
            && FeedOK(hash, s, Some(n), Session.Feed(c, out[|out| - 1].(reqID := s.created[n].id)))
  {
    var f', n := Moved(f, c, s.db, pick), s.readers[c];
    hide Moved, FeederOK, OpenedWith, StoreRuns.Consistent, SessionRuns.WasOpened;
    MoveKeepsFeeder(f, c, s.db, pick);
    var e := f'.Sent()[|f'.Sent()| - 1];
    SentAreEntries(f', c, s.db, |f'.Sent()| - 1);
    hide IsEntry, SessionRuns.StreamsOK;
    assert OpenedWith(hash, s, s.created[n].id, c, f.Options()) && IsEntry(e, f.Options().KeysOnly(), c, s.db);
  }

  lemma StepGrows(hash: string -> ChannelID, v: State, e: Event)
    requires e.OtherWrite? ==> Lawful(e.op)
    ensures Grown(v.s, Step(hash, v, e).s)
  {
    hide Session.Step, Grown, Moved;
    var se := SessionEvent(v, e);
    if se.Some? {
      SessionGrows(hash, v.s, se.value);
    } else {
      NothingGrows(v.s);
    }
  }

  lemma NothingGrows(s: Session.Session)
    ensures Grown(s, s)
  {
  }

  lemma StepKeepsBasics(hash: string -> ChannelID, v: State, e: Event)
    requires SessionRuns.StreamsOK(hash, v.s) && StoreRuns.Consistent(v.s.db) && (e.OtherWrite? ==> Lawful(e.op))
    ensures SessionRuns.StreamsOK(hash, Step(hash, v, e).s) && StoreRuns.Consistent(Step(hash, v, e).s.db)
  {
    var se := SessionEvent(v, e);
    if se.Some? {
      SessionRuns.StepKeepsStreams(hash, v.s, se.value);
    }
    hide SessionRuns.StreamsOK, StoreRuns.Consistent, Apply, Outcome, Moved, WriteOf, Session.Handled;
    match e
    case Request(req, seconds, fault) =>
      ReceiveWrites(hash, v.s, req, seconds, fault);
      hide Session.Step;
      if WriteOf(hash, req, seconds, fault).Some? {
        WritesLawfully(hash, req, seconds, fault);
        StoreRuns.StepKeepsConsistent(v.s.db, WriteOf(hash, req, seconds, fault).value);
      }
    case OtherWrite(op) => StoreRuns.StepKeepsConsistent(v.s.db, op);
    case _ =>
  }

  lemma WritesLawfully(hash: string -> ChannelID, req: Session.FeedReq, seconds: Seconds, fault: Fault)
    requires WriteOf(hash, req, seconds, fault).Some?
    ensures Lawful(WriteOf(hash, req, seconds, fault).value)
  {
  }

  lemma MoveKeepsReaders(hash: string -> ChannelID, v: State, c: ChannelID, pick: Reader.Pick)
    requires StoreRuns.Consistent(v.s.db) && ReadersOK(hash, v.s, v.feeders)
    requires Grown(v.s, Step(hash, v, Move(c, pick)).s)
    ensures ReadersOK(hash, Step(hash, v, Move(c, pick)).s, Feeders(hash, v, Move(c, pick)))
  {
    hide Grown, StoreRuns.Consistent, ReaderOK, Moved, AfterRequest, Session.Handled, TouchedAll;
    var s', feeders := Step(hash, v, Move(c, pick)).s, Feeders(hash, v, Move(c, pick));
    forall d | d in feeders ensures ReaderOK(hash, s', feeders[d], d) {
      if c == d {
        MoveKeepsReader(hash, v.s, s', v.feeders[c], c, pick);
      } else {
        IdleKeepsReader(hash, v.s, s', v.feeders[d], d);
      }
    }
  }

  lemma StepKeepsReaders(hash: string -> ChannelID, v: State, e: Event)
    requires SessionRuns.StreamsOK(hash, v.s) && StoreRuns.Consistent(v.s.db) && ReadersOK(hash, v.s, v.feeders)
    requires e.OtherWrite? ==> Lawful(e.op)
    ensures ReadersOK(hash, Step(hash, v, e).s, Feeders(hash, v, e))
  {
    if e.Request? {
      hide Grown, SessionRuns.StreamsOK, StoreRuns.Consistent, ReaderOK, AfterRequest, Session.Handled;
      if v.s.status == Session.Serving && v.s.pending.None? {
        RequestKeepsReaders(hash, v, e.req, e.seconds, e.fault);
      }
    } else {
      hide *;
      StepGrows(hash, v, e);
      if e.Move? {
        MoveKeepsReaders(hash, v, e.channel, e.pick);
      } else {
        OthersKeepReaders(hash, v, e);
      }
    }
  }

  /** What a step adds to the messages sent: nothing, a reply, or a message of a reader whose
      stream has not been cancelled. */
  lemma StepAddsMessage(hash: string -> ChannelID, v: State, e: Event)
    requires SessionRuns.StreamsOK(hash, v.s) && StoreRuns.Consistent(v.s.db) && ReadersOK(hash, v.s, v.feeders)
    requires |v.sources| == |v.s.sent|
    ensures var v', j := Step(hash, v, e), |v.s.sent|;
            && j <= |v'.s.sent| <= j + 1 && v.s.sent <= v'.s.sent && v.sources <= v'.sources
            && |v'.sources| == |v'.s.sent|
            && (|v'.s.sent| > j && v'.s.sent[j].Feed? ==>
                  && FeedOK(hash, v.s, v'.sources[j], v'.s.sent[j]) && v'.s == v.s.(sent := v'.s.sent)
                  && v'.sources[j].value < |v.s.created| && !v.s.created[v'.sources[j].value].cancelled)
            && (|v'.s.sent| > j && !v'.s.sent[j].Feed? ==> v'.sources[j].None?)
  {
    hide SessionRuns.StreamsOK, StoreRuns.Consistent, ReaderOK, FeedOK, Moved, Session.Handled, Feeders, Apply, Outcome;
    match e
    case Request(req, seconds, fault) => Session.HandlerKeepsNotes(hash, v.s, req, seconds, fault);
    case Move(c, pick) =>
      if c in v.feeders && Moved(v.feeders[c], c, v.s.db, pick).Sent() != v.feeders[c].Sent() {
        PublishedIsOK(hash, v.s, v.feeders[c], c, pick);
      }
    case _ =>
  }

  lemma StepKeepsVault(hash: string -> ChannelID, v: State, e: Event)
    requires VaultOK(hash, v) && (e.OtherWrite? ==> Lawful(e.op))
    ensures VaultOK(hash, Step(hash, v, e))
  {
    var v', j := Step(hash, v, e), |v.s.sent|;
    assert v'.feeders == Feeders(hash, v, e);
    hide Step, Grown, SessionRuns.StreamsOK, StoreRuns.Consistent, ReadersOK, FeedOK;
    StepGrows(hash, v, e);
    StepKeepsBasics(hash, v, e);
    StepKeepsReaders(hash, v, e);
    StepAddsMessage(hash, v, e);
    if |v'.s.sent| > j && v'.s.sent[j].Feed? {
      FeedStays(hash, v.s, v'.s, v'.sources[j], v'.s.sent[j]);
    }
    MessagesStay(hash, v, v');
  }

  // ---------- Whole runs ----------

  /** In every run of a connection, whatever it asks for and however its readers, other writers and
      the watchers interleave: every live reader has come, from a new subscription on the database
      and with the watcher of that moment, by the run that its history tells, and has the session's
      database before it; a replay shows a snapshot of it; both have the options of the request that
      opened their stream; a
      reader whose stream is cancelled has its context cancelled; and every feed message sent is an
      entry of its channel. */
  lemma {:induction false} RunKeepsVault(hash: string -> ChannelID, db: Snapshot, watchers: set<ChannelID>, es: seq<Event>)
    requires StoreRuns.Consistent(db) && LawfulEvents(es)
    ensures VaultOK(hash, Run(hash, NewVault(db, watchers), es))
  {
    if es == [] {
    } else {
      var n := |es| - 1;
      hide Step, VaultOK;
      RunKeepsVault(hash, db, watchers, es[..n]);
      StepKeepsVault(hash, Run(hash, NewVault(db, watchers), es[..n]), es[n]);
    }
  }

  lemma KeysOnlyAsAsked(req: Session.OpenReq)
    requires Session.Translated(req).Some?
    ensures Session.Translated(req).value.KeysOnly() <==> req.idsOnly
  {
  }

  /** Every feed message ever sent answers a request of this connection that opened the channel
      under the message's ID, and it is the entry that the database holds under some key of that
      channel, whole or as its ID alone just as that request asked. */
  lemma {:induction false} FeedMessagesAreEntries(hash: string -> ChannelID, db: Snapshot, watchers: set<ChannelID>,
                                                  es: seq<Event>, j: nat)
    requires StoreRuns.Consistent(db) && LawfulEvents(es)
    requires var sent := Run(hash, NewVault(db, watchers), es).s.sent; j < |sent| && sent[j].Feed?
    ensures var s := Run(hash, NewVault(db, watchers), es).s;
            var c, msg := s.sent[j].channel, s.sent[j].msg;
            exists i, k ::
              && 0 <= i < |s.handled| && SessionRuns.IsOpenOf(hash, s.handled[i], msg.reqID, c)
              && k in s.db && EntryPrefix(c) <= k && s.db[k].Stored?
              && msg == (if s.handled[i].open.value.idsOnly then IDOnly(k[PREFIX_SIZE..]) else s.db[k].msg)
                          .(reqID := msg.reqID)
  {
    hide Run, VaultOK, StoreRuns.Consistent, LawfulEvents, NewVault;
    RunKeepsVault(hash, db, watchers, es);
    SentIsMessage(hash, Run(hash, NewVault(db, watchers), es), j);
  }

  lemma SentIsMessage(hash: string -> ChannelID, v: State, j: nat)
    requires VaultOK(hash, v) && j < |v.s.sent| && v.s.sent[j].Feed?
    ensures var c, msg := v.s.sent[j].channel, v.s.sent[j].msg;
            exists i, k ::
              && 0 <= i < |v.s.handled| && SessionRuns.IsOpenOf(hash, v.s.handled[i], msg.reqID, c)
              && k in v.s.db && EntryPrefix(c) <= k && v.s.db[k].Stored?
              && msg == (if v.s.handled[i].open.value.idsOnly then IDOnly(k[PREFIX_SIZE..]) else v.s.db[k].msg)
                          .(reqID := msg.reqID)
  {
    hide StoreRuns.Consistent, SessionRuns.StreamsOK, ReadersOK, FeedOK;
    FeedIsMessage(hash, v.s, v.sources[j], v.s.sent[j]);
  }

  lemma FeedIsMessage(hash: string -> ChannelID, s: Session.Session, source: Option<nat>, m: Session.Sent)
    requires FeedOK(hash, s, source, m)
    ensures exists i, k ::
              && 0 <= i < |s.handled| && SessionRuns.IsOpenOf(hash, s.handled[i], m.msg.reqID, m.channel)
              && k in s.db && EntryPrefix(m.channel) <= k && s.db[k].Stored?
              && m.msg == (if s.handled[i].open.value.idsOnly then IDOnly(k[PREFIX_SIZE..]) else s.db[k].msg)
                            .(reqID := m.msg.reqID)
  {
    hide Session.Translated;
    var opts, e :|
      OpenedWith(hash, s, m.msg.reqID, m.channel, opts) && IsEntry(e, opts.KeysOnly(), m.channel, s.db)
      && m.msg == e.(reqID := m.msg.reqID);
    var i :| 0 <= i < |s.handled| && SessionRuns.IsOpenOf(hash, s.handled[i], m.msg.reqID, m.channel)
             && Session.Translated(s.handled[i].open.value) == Some(opts);
    var k :| IsMessageOf(e, opts.KeysOnly(), m.channel, s.db, k);
    KeysOnlyAsAsked(s.handled[i].open.value);
  }

  /** A run of the whole is a run of its session, so all that is known of sessions holds of it. */
  lemma {:induction false} RunIsSessionRun(hash: string -> ChannelID, db: Snapshot, watchers: set<ChannelID>, es: seq<Event>)
    returns (ses: seq<Session.Event>)
    ensures Run(hash, NewVault(db, watchers), es).s == Session.Run(hash, Session.NewSession(db), ses)
  {
    if es == [] {
      ses := [];
    } else {
      var n := |es| - 1;
      var before := RunIsSessionRun(hash, db, watchers, es[..n]);
      var v := Run(hash, NewVault(db, watchers), es[..n]);
      var se := SessionEvent(v, es[n]);
      hide Session.Step, SessionEvent, Feeders;
      ses := if se.Some? then before + [se.value] else before;
      assert se.Some? ==> ses[..|ses| - 1] == before;
    }
  }

  // ---------- Silence after a cancellation ----------

  /** Once a stream is cancelled no message comes from it any more: its reader publishes in no later
      select, and no other reader publishes for it. */
  lemma {:induction false} CancelledStreamIsSilent(hash: string -> ChannelID, v: State, es: seq<Event>, n: nat)
    requires VaultOK(hash, v) && LawfulEvents(es) && n < |v.s.created| && v.s.created[n].cancelled
    ensures var v' := Run(hash, v, es);
            && VaultOK(hash, v') && n < |v'.s.created| && v'.s.created[n].cancelled
            && v.sources <= v'.sources
            && forall j :: |v.sources| <= j < |v'.sources| ==> v'.sources[j] != Some(n)
  {
    if es == [] {
    } else {
      var m := |es| - 1;
      CancelledStreamIsSilent(hash, v, es[..m], n);
      var w := Run(hash, v, es[..m]);
      assert VaultOK(hash, w) ==> |w.sources| == |w.s.sent|;
      StepIsSilent(hash, w, es[m], n);
      StepKeepsVault(hash, w, es[m]);
      hide Step, VaultOK;
    }
  }

  lemma StepIsSilent(hash: string -> ChannelID, v: State, e: Event, n: nat)
    requires VaultOK(hash, v) && (e.OtherWrite? ==> Lawful(e.op)) && n < |v.s.created| && v.s.created[n].cancelled
    ensures var v' := Step(hash, v, e);
            && n < |v'.s.created| && v'.s.created[n].cancelled
            && v.sources <= v'.sources && |v'.sources| <= |v.sources| + 1
            && (|v'.sources| > |v.sources| ==> v'.sources[|v.sources|] != Some(n))
  {
    hide Step, SessionRuns.StreamsOK, StoreRuns.Consistent, ReadersOK, FeedOK;
    StepGrows(hash, v, e);
    StepAddsMessage(hash, v, e);
  }

  /** From the moment at which a cancellation is handled, even before it is answered, the stream
      that it named sends nothing, whatever else the connection asks for, the same ID included. */
  lemma {:induction false} CancellationSilences(hash: string -> ChannelID, db: Snapshot, watchers: set<ChannelID>,
                                                before: seq<Event>, k: ReqID, seconds: Seconds, fault: Fault,
                                                after: seq<Event>)
    requires StoreRuns.Consistent(db) && LawfulEvents(before) && LawfulEvents(after)
    requires var s := Run(hash, NewVault(db, watchers), before).s;
             s.status == Session.Serving && s.pending.None? && k in s.streams
    ensures var v := Run(hash, NewVault(db, watchers), before);
            var v' := Step(hash, v, Request(Session.CancelReq(k), seconds, fault));
            && v'.sources == v.sources
            && v.s.streams[k] < |v.s.created| && v.s.created[v.s.streams[k]].id == k
            && forall j :: |v.sources| <= j < |Run(hash, v', after).sources| ==>
                 Run(hash, v', after).sources[j] != Some(v.s.streams[k])
  {
    var v := Run(hash, NewVault(db, watchers), before);
    var e := Request(Session.CancelReq(k), seconds, fault);
    RunKeepsVault(hash, db, watchers, before);
    StepKeepsVault(hash, v, e);
    CancelMarks(hash, v, k, seconds, fault);
    hide Run, Step, VaultOK, LawfulEvents, StoreRuns.Consistent;
    CancelledStreamIsSilent(hash, Step(hash, v, e), after, v.s.streams[k]);
  }

  lemma CancelMarks(hash: string -> ChannelID, v: State, k: ReqID, seconds: Seconds, fault: Fault)
    requires VaultOK(hash, v) && v.s.status == Session.Serving && v.s.pending.None? && k in v.s.streams
    ensures var n, v' := v.s.streams[k], Step(hash, v, Request(Session.CancelReq(k), seconds, fault));
            && n < |v.s.created| && v.s.created[n].id == k && v'.sources == v.sources
            && n < |v'.s.created| && v'.s.created[n].cancelled
  {
    hide ReadersOK, FeedOK, StoreRuns.Consistent, SessionRuns.WasOpened, Feeders;
  }
}

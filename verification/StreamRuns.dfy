/** The guarantees of the live feed, of index replays and of cancellation, told of the messages that
    a client hears under one request ID. */
module StreamRuns {
  import opened ByteStrings
  import opened Database
  import opened Feeds
  import opened Keys
  import opened Messages
  import opened StreamOptions
  import opened Transactions
  import opened Vault
  import opened VaultRuns
  import Guarantees

  // ---------- All of it, in every run ----------

  ghost predicate RunOK(hash: string -> ChannelID, v: State, c: ChannelID) {
    VaultOK(hash, v) && HeardOK(v) && ResetsNoted(v, c) && SessionRuns.ResetsAsked(hash, v.s)
  }

  lemma StepKeepsRunOK(hash: string -> ChannelID, v: State, e: Event, c: ChannelID)
    requires RunOK(hash, v, c) && (e.OtherWrite? ==> Lawful(e.op))
    ensures RunOK(hash, Step(hash, v, e), c)
  {
    hide Step, VaultOK, HeardOK, ResetsNoted, SessionRuns.ResetsAsked;
    StepKeepsVault(hash, v, e);
    StepKeepsHeard(hash, v, e);
    VaultHasStreams(hash, v);
    StepKeepsNoted(hash, v, e, c);
    StepKeepsAsked(hash, v, e);
  }

  lemma StepKeepsAsked(hash: string -> ChannelID, v: State, e: Event)
    requires SessionRuns.ResetsAsked(hash, v.s)
    ensures SessionRuns.ResetsAsked(hash, Step(hash, v, e).s)
  {
    hide SessionRuns.ResetsAsked, Session.Step, Feeders, Moved;
    if SessionEvent(v, e).Some? {
      SessionRuns.StepKeepsResets(hash, v.s, SessionEvent(v, e).value);
    }
  }

  lemma NewRunOK(hash: string -> ChannelID, db: Snapshot, watchers: set<ChannelID>, c: ChannelID)
    requires StoreRuns.Consistent(db)
    ensures RunOK(hash, NewVault(db, watchers), c)
    ensures Ordered(NewVault(db, watchers), c) && (c in watchers ==> Watched(NewVault(db, watchers), c))
  {
    hide StoreRuns.Consistent;
  }

  /** In every run the client hears of each stream with a reader exactly what that reader has
      published, and the reader has received no reset but what some request of this connection that
      opened its channel asked for. */
  lemma {:induction false} StreamsCarryReaders(hash: string -> ChannelID, db: Snapshot, watchers: set<ChannelID>,
                                               es: seq<Event>, c: ChannelID)
    requires StoreRuns.Consistent(db) && LawfulEvents(es)
    ensures RunOK(hash, Run(hash, NewVault(db, watchers), es), c)
  {
    if es == [] {
      NewRunOK(hash, db, watchers, c);
    } else {
      var n := |es| - 1;
      hide Step, RunOK, StoreRuns.Consistent;
      StreamsCarryReaders(hash, db, watchers, es[..n], c);
      StepKeepsRunOK(hash, Run(hash, NewVault(db, watchers), es[..n]), es[n], c);
    }
  }

  lemma {:induction false} RunKeepsWatched(hash: string -> ChannelID, v: State, es: seq<Event>, c: ChannelID)
    requires Watched(v, c)
    ensures Watched(Run(hash, v, es), c)
  {
    if es == [] {
    } else {
      var n := |es| - 1;
      hide Step, Watched;
      RunKeepsWatched(hash, v, es[..n], c);
      StepKeepsWatched(hash, Run(hash, v, es[..n]), es[n], c);
    }
  }

  lemma InOrderBefore(hash: string -> ChannelID, v: State, es: seq<Event>, c: ChannelID)
    requires es != [] && InOrder(hash, v, es, c)
    ensures InOrder(hash, v, es[..|es| - 1], c)
    ensures StepInOrder(hash, Run(hash, v, es[..|es| - 1]), es[|es| - 1], c)
  {
    hide StepInOrder, Run;
    var n := |es| - 1;
    forall i | 0 <= i <= n ensures es[..n][..i] == es[..i] {}
  }

  lemma {:induction false} RunKeepsOrdered(hash: string -> ChannelID, db: Snapshot, watchers: set<ChannelID>,
                                           es: seq<Event>, c: ChannelID)
    requires StoreRuns.Consistent(db) && LawfulEvents(es) && InOrder(hash, NewVault(db, watchers), es, c)
    ensures Ordered(Run(hash, NewVault(db, watchers), es), c)
  {
    if es == [] {
      NewRunOK(hash, db, watchers, c);
    } else {
      var n, v0 := |es| - 1, NewVault(db, watchers);
      hide Step, Ordered, StoreRuns.Consistent, StepInOrder, InOrder, VaultOK, NewVault;
      InOrderBefore(hash, v0, es, c);
      RunKeepsOrdered(hash, db, watchers, es[..n], c);
      RunKeepsVault(hash, db, watchers, es[..n]);
      StepKeepsOrdered(hash, Run(hash, v0, es[..n]), es[n], c);
    }
  }

  // ---------- How a stream begins ----------

  /** An accepted open of a channel that the connection does not read starts a reader on a stream
      under the request's ID: an index replay if, and only if, that is the mode asked for, and else a
      live reader; with the options asked for, on the database as it is, nothing sent, and free of
      resets and cancellation. */
  lemma OpenStartsReader(hash: string -> ChannelID, v: State, req: Session.FeedReq, seconds: Seconds, fault: Fault,
                         c: ChannelID)
    requires v.s.status == Session.Serving && v.s.pending.None? && v.feeders.Keys == v.s.readers.Keys
    requires OpenOf(hash, req) == Some(c) && c !in v.s.readers && Session.Translated(req.open.value).Some?
    ensures var v', n := Step(hash, v, Request(req, seconds, fault)), |v.s.created|;
            && c in v'.feeders && v'.s.readers == v.s.readers[c := n] && v'.s.streams == v.s.streams[req.reqID := n]
            && v'.s.created == v.s.created + [Session.Stream(req.reqID, c, false)] && v'.s.resets == v.s.resets
            && var f := v'.feeders[c];
            && (f.Replay? <==> req.open.value.mode == Session.FromIndex)
            && Some(f.Options()) == Session.Translated(req.open.value) && f.Sent() == [] && !f.Stopped() && !f.Finished()
            && if f.Replay? then f.view.None? && f.begun == v.s.db
               else
                 && f.w == f.origin && f.events == [] && f.since == |v.s.resets|
                 && Reader.Initial(f.w, f.Options()) && f.w.db == v.s.db && f.w.prefix == EntryPrefix(c)
                 && f.w.resets == [] && f.w.queued == 0 && !f.w.offered && (f.w.watching <==> c in v.watchers)
  {
    IndexModeExactly(req.open.value);
    hide Session.Translated, Touched;
  }

  lemma IndexModeExactly(req: Session.OpenReq)
    requires Session.Translated(req).Some?
    ensures Session.Translated(req).value.FromIndex() <==> req.mode == Session.FromIndex
  {
  }

  /** A watcher that takes effect is there for every reader that starts from then on, and for the one
      that is there. */
  lemma {:induction false} RegisteredWatches(hash: string -> ChannelID, v: State, c: ChannelID, es: seq<Event>)
    ensures c in Run(hash, Step(hash, v, Register(c)), es).watchers
    ensures HasLive(v, c) ==> Step(hash, v, Register(c)).feeders[c].w.watching
  {
    hide Session.Step, Feeders, Step;
    if es == [] {
      RegisterNotes(hash, v, c);
    } else {
      RegisteredWatches(hash, v, c, es[..|es| - 1]);
      WatchersStay(hash, Run(hash, Step(hash, v, Register(c)), es[..|es| - 1]), es[|es| - 1]);
    }
    RegisterNotes(hash, v, c);
  }

  lemma RegisterNotes(hash: string -> ChannelID, v: State, c: ChannelID)
    ensures var v' := Step(hash, v, Register(c));
            && c in v'.watchers && v'.s == v.s
            && (HasLive(v, c) ==> c in v'.feeders && v'.feeders[c].Live? && v'.feeders[c].w == v.feeders[c].w.(watching := true))
  {
  }

  lemma WatchersStay(hash: string -> ChannelID, v: State, e: Event)
    ensures v.watchers <= Step(hash, v, e).watchers
  {
  }

  /** A reader that has returned can leave, and then nothing of it is left in the connection's way:
      another open of the channel starts a new one. */
  lemma ExitFreesChannel(hash: string -> ChannelID, v: State, c: ChannelID)
    requires v.feeders.Keys == v.s.readers.Keys && c in v.feeders
    requires if v.feeders[c].Live? then v.feeders[c].w.r.phase.Returned? else v.feeders[c].done
    ensures var v' := Step(hash, v, Exit(c));
            && c !in v'.feeders && v'.s.readers == v.s.readers - {c} && v'.feeders.Keys == v'.s.readers.Keys
            && v'.s.streams == v.s.streams && v'.s.sent == v.s.sent
  {
  }

  /** The first open of a connection for a live mode begins a live feed, opened once and in order. */
  lemma FirstFeed(hash: string -> ChannelID, db: Snapshot, watchers: set<ChannelID>, req: Session.FeedReq,
                  seconds: Seconds, fault: Fault, c: ChannelID)
    requires OpenOf(hash, req) == Some(c) && Session.Translated(req.open.value).Some?
    requires !Session.Translated(req.open.value).value.FromIndex()
    ensures var es := [Request(req, seconds, fault)];
            var v := Run(hash, NewVault(db, watchers), es);
            && LawfulEvents(es) && InOrder(hash, NewVault(db, watchers), es, c)
            && HasLive(v, c) && OpenedOnce(v.s, c)
  {
    var v0, es := NewVault(db, watchers), [Request(req, seconds, fault)];
    var none: seq<Event> := [];
    assert es[..0] == none && Run(hash, v0, none) == v0;
    assert Run(hash, v0, es) == Step(hash, v0, es[0]);
    OpenStartsReader(hash, v0, req, seconds, fault, c);
    IndexModeExactly(req.open.value);
    hide Step, Session.Translated;
  }

  // ---------- An ordered feed ----------

  /** No open of `c` came while this connection had a reader on `c`. */
  predicate OpenedOnce(s: Session.Session, c: ChannelID) {
    forall i :: 0 <= i < |s.resets| ==> s.resets[i].0 != c
  }

  /** The database at the moment at which the live reader on `c` took up its position. */
  ghost function StartedOn(v: State, c: ChannelID): Snapshot
    requires HasLive(v, c)
  {
    FeedStarts.StartStore(v.feeders[c].origin, v.feeders[c].events)
  }

  /** What the options of the reader on `c` ask for of the channel, in order. */
  ghost function Entries(v: State, c: ChannelID): seq<Bytes>
    requires HasLive(v, c)
  {
    var opts := v.feeders[c].w.r.opts;
    Ascending(FeedStarts.Asked(v.s.db, StartedOn(v, c), EntryPrefix(c), opts, opts.SkipFirst(), []))
  }

  ghost function HeardOn(v: State, c: ChannelID): seq<Msg>
    requires c in v.s.readers && |v.sources| == |v.s.sent|
  {
    Heard(v.s.sent, v.sources, v.s.readers[c])
  }

  /** The message for the entry under `k` of database `db`, sent under `id`. */
  predicate Carries(m: Msg, keysOnly: bool, c: ChannelID, db: Snapshot, k: Bytes, id: ReqID) {
    && k in db && EntryPrefix(c) <= k && db[k].Stored?
    && m == (if keysOnly then IDOnly(k[PREFIX_SIZE..]) else db[k].msg).(reqID := id)
  }

  /** What is heard is the first of these entries, one message each, in the form that the options say
      and under the stream's ID. */
  ghost predicate HearsFirst(v: State, c: ChannelID, all: seq<Bytes>)
    requires HasLive(v, c) && c in v.s.readers && v.s.readers[c] < |v.s.created| && |v.sources| == |v.s.sent|
  {
    var heard, opts := HeardOn(v, c), v.feeders[c].w.r.opts;
    && |heard| <= |all| && |heard| <= opts.max
    && forall i :: 0 <= i < |heard| ==>
         Carries(heard[i], opts.KeysOnly(), c, v.s.db, all[i], v.s.created[v.s.readers[c]].id)
  }

  lemma OutIsFirst(w: Reader.World, origin: Reader.World, events: seq<Reader.Event>)
    requires Reader.Initial(origin, w.r.opts) && origin.resets == [] && Reader.LawfulRun(events)
    requires Reader.Run(origin, events) == w && LiveFeed.NoReset(events) && LiveFeed.IncreasingIDs(origin, events)
    ensures w.prefix == origin.prefix
    ensures var all := Ascending(FeedStarts.Asked(w.db, FeedStarts.StartStore(origin, events), w.prefix, w.r.opts,
                                                  w.r.opts.SkipFirst(), []));
            && |w.r.out| <= |all| && |w.r.out| <= w.r.opts.max && |w.r.out| == |w.r.epoch.keys|
            && forall i :: 0 <= i < |w.r.out| ==>
                 && w.prefix <= all[i] && all[i] in w.db
                 && w.r.out[i] == Reader.Rendered(w.r.opts.KeysOnly(), w.db, all[i])
  {
    hide Reader.Run, Reader.Initial, Reader.LawfulRun, LiveFeed.IncreasingIDs, LiveFeed.NoReset, FeedStarts.Asked,
         Reader.Rendered, Projection.AllKeys, Projection.SameEntries;
    FeedStarts.FeedFromStart(origin, w.r.opts, events);
    LiveFeed.FirstEpochOptions(origin, w.r.opts, events);
    LiveFeed.PrefixAndOptionsStay(origin, events);
    Projection.StreamShowsEntries(origin, w.r.opts, events);
    FirstEpochIsAll(w.r);
  }

  lemma FirstEpochIsAll(r: Reader.ReaderState)
    requires r.past == []
    ensures Projection.AllKeys(r) == r.epoch.keys
  {
  }

  lemma {:induction false} OneRequested(es: seq<Reader.Event>, i: nat)
    requires i < |es| && es[i].RequestReset?
    ensures es[i].reset in FeedStarts.Requested(es)
  {
    var n := |es| - 1;
    if i == n {
    } else {
      assert es[..n][i] == es[i];
      OneRequested(es[..n], i);
    }
  }

  lemma {:induction false} OnlyNoted(notes: seq<(ChannelID, Option<StreamOpts>)>, c: ChannelID)
    ensures forall o :: o in NotedFor(notes, c) ==> (c, o) in notes
  {
    if notes == [] {
    } else {
      OnlyNoted(notes[..|notes| - 1], c);
    }
  }

  /** A reset in the history of a reader is in the notes of its session. */
  lemma RequestedIsNoted(v: State, c: ChannelID, i: nat)
    requires ResetsNoted(v, c) && HasLive(v, c) && i < |v.feeders[c].events| && v.feeders[c].events[i].RequestReset?
    ensures (c, v.feeders[c].events[i].reset) in v.s.resets
  {
    OneRequested(v.feeders[c].events, i);
    OnlyNoted(v.s.resets[v.feeders[c].since..], c);
  }

  lemma NotedMeansNoReset(v: State, c: ChannelID)
    requires ResetsNoted(v, c) && HasLive(v, c) && OpenedOnce(v.s, c)
    ensures LiveFeed.NoReset(v.feeders[c].events)
  {
    forall i | 0 <= i < |v.feeders[c].events| ensures !v.feeders[c].events[i].RequestReset? {
      if v.feeders[c].events[i].RequestReset? {
        RequestedIsNoted(v, c, i);
        assert false;
      }
    }
  }

  /** With IDs arriving in order and the channel opened once, the client hears under the ID of that
      open the first of the entries that it asked for, from the position that the reader took up on
      some database between that of the open and the present one, in order, without gap or repeat, in
      the form it asked for and no more than it allowed. */
  lemma {:induction false} FeedIsSortedPrefix(hash: string -> ChannelID, db: Snapshot, watchers: set<ChannelID>,
                                              es: seq<Event>, c: ChannelID)
    requires StoreRuns.Consistent(db) && LawfulEvents(es) && InOrder(hash, NewVault(db, watchers), es, c)
    requires var v := Run(hash, NewVault(db, watchers), es); HasLive(v, c) && OpenedOnce(v.s, c)
    ensures var v := Run(hash, NewVault(db, watchers), es);
            && c in v.s.readers && v.s.readers[c] < |v.s.created| && |v.sources| == |v.s.sent|
            && HearsFirst(v, c, Entries(v, c))
            && OpenedWith(hash, v.s, v.s.created[v.s.readers[c]].id, c, v.feeders[c].w.r.opts)
            && v.feeders[c].origin.db.Keys <= StartedOn(v, c).Keys <= v.s.db.Keys
  {
    var v := Run(hash, NewVault(db, watchers), es);
    StreamsCarryReaders(hash, db, watchers, es, c);
    RunKeepsOrdered(hash, db, watchers, es, c);
    hide Run, InOrder, LawfulEvents, StoreRuns.Consistent;
    FeedIsFirst(hash, v, c);
    StartedBetween(hash, v, c);
  }

  lemma {:induction false} StoreGrows(w: Reader.World, es: seq<Reader.Event>)
    ensures w.db.Keys <= Reader.Run(w, es).db.Keys
  {
    if es == [] {
    } else {
      var n := |es| - 1;
      StoreGrows(w, es[..n]);
      var w' := Reader.Run(w, es[..n]);
      if es[n].Write? {
        KeysStay(w'.db, es[n].op);
      } else {
        Projection.MovesKeepDatabase(w', es[n]);
      }
      hide Reader.Moved, Apply;
    }
  }

  lemma StartedBetween(hash: string -> ChannelID, v: State, c: ChannelID)
    requires RunOK(hash, v, c) && HasLive(v, c)
    ensures v.feeders[c].origin.db.Keys <= StartedOn(v, c).Keys <= v.s.db.Keys
  {
    hide VaultOK, HeardOK, Lived, Reader.Run, FeedStarts.FirstMove;
    LiveReader(hash, v, c);
    var f := v.feeders[c];
    var n := FeedStarts.FirstMove(f.events);
    StoreGrows(f.origin, f.events[..n]);
    StoreGrows(Reader.Run(f.origin, f.events[..n]), f.events[n..]);
    FeedStarts.RunSplits(f.origin, f.events[..n], f.events[n..]);
    assert f.events[..n] + f.events[n..] == f.events;
  }

  lemma FeedIsFirst(hash: string -> ChannelID, v: State, c: ChannelID)
    requires RunOK(hash, v, c) && Ordered(v, c) && HasLive(v, c) && OpenedOnce(v.s, c)
    ensures c in v.s.readers && v.s.readers[c] < |v.s.created| && |v.sources| == |v.s.sent|
    ensures HearsFirst(v, c, Entries(v, c))
    ensures OpenedWith(hash, v.s, v.s.created[v.s.readers[c]].id, c, v.feeders[c].w.r.opts)
    ensures |HeardOn(v, c)| == |v.feeders[c].w.r.epoch.keys|
  {
    hide VaultOK, LiveFeed.IncreasingIDs, OpenedWith, Lived, Heard, FeedStarts.Asked, Reader.Rendered, StoreRuns.Consistent;
    ReaderWasThere(hash, v, c);
    VaultHasStreams(hash, v);
    LiveReader(hash, v, c);
    NotedMeansNoReset(v, c);
    var f := v.feeders[c];
    OutIsFirst(f.w, f.origin, f.events);
    var all := Entries(v, c);
    forall i | 0 <= i < |f.w.r.out|
      ensures Carries(HeardOn(v, c)[i], f.w.r.opts.KeysOnly(), c, v.s.db, all[i], v.s.created[v.s.readers[c]].id)
    {
      RenderedIsMessage(v.s.db, c, all[i], f.w.r.opts.KeysOnly());
    }
  }

  /** And all of them once the reader waits with nothing on its way to it, if the channel was being
      watched when the connection began and the open's options are harmless. */
  lemma {:induction false} FeedIsComplete(hash: string -> ChannelID, db: Snapshot, watchers: set<ChannelID>,
                                          es: seq<Event>, c: ChannelID)
    requires StoreRuns.Consistent(db) && LawfulEvents(es) && InOrder(hash, NewVault(db, watchers), es, c)
    requires c in watchers
    requires var v := Run(hash, NewVault(db, watchers), es);
             && HasLive(v, c) && OpenedOnce(v.s, c) && Wakeup.Quiet(v.feeders[c].w)
             && Wakeup.Harmless(v.feeders[c].w.r.opts, EntryPrefix(c))
    ensures var v := Run(hash, NewVault(db, watchers), es);
            && c in v.s.readers && v.s.readers[c] < |v.s.created| && |v.sources| == |v.s.sent|
            && HearsFirst(v, c, Entries(v, c)) && |HeardOn(v, c)| == |Entries(v, c)|
  {
    var v := Run(hash, NewVault(db, watchers), es);
    StreamsCarryReaders(hash, db, watchers, es, c);
    RunKeepsOrdered(hash, db, watchers, es, c);
    NewRunOK(hash, db, watchers, c);
    RunKeepsWatched(hash, NewVault(db, watchers), es, c);
    hide Run, InOrder, LawfulEvents, StoreRuns.Consistent, HearsFirst;
    FeedIsFirst(hash, v, c);
    FeedIsWhole(hash, v, c);
  }

  lemma FeedIsWhole(hash: string -> ChannelID, v: State, c: ChannelID)
    requires RunOK(hash, v, c) && Ordered(v, c) && Watched(v, c) && HasLive(v, c) && OpenedOnce(v.s, c)
    requires Wakeup.Quiet(v.feeders[c].w) && Wakeup.Harmless(v.feeders[c].w.r.opts, EntryPrefix(c))
    ensures |v.feeders[c].w.r.epoch.keys| == |Entries(v, c)|
  {
    hide VaultOK, HeardOK, LiveFeed.IncreasingIDs, Lived, FeedStarts.Asked, Wakeup.Quiet, Wakeup.Harmless;
    LiveReader(hash, v, c);
    NotedMeansNoReset(v, c);
    var f := v.feeders[c];
    FeedStarts.QuietFeedFromStart(f.origin, f.w.r.opts, f.events);
  }

  /** So what is heard under an open after the head is, first to last, exactly the entries greater than
      all that the channel had when the reader took up its position, everything if it had none; and all
      of them when the reader waits with nothing on its way to it, under an early watcher. */
  lemma {:induction false} HeardAfterHead(hash: string -> ChannelID, db: Snapshot, watchers: set<ChannelID>,
                                          es: seq<Event>, c: ChannelID)
    requires StoreRuns.Consistent(db) && LawfulEvents(es) && InOrder(hash, NewVault(db, watchers), es, c)
    requires var v := Run(hash, NewVault(db, watchers), es);
             && HasLive(v, c) && OpenedOnce(v.s, c)
             && v.feeders[c].w.r.opts.FromHead() && v.feeders[c].w.r.opts.SkipFirst()
    ensures var v := Run(hash, NewVault(db, watchers), es);
            var newer := Ascending(FeedStarts.Newer(v.s.db, StartedOn(v, c), EntryPrefix(c)));
            && c in v.s.readers && v.s.readers[c] < |v.s.created| && |v.sources| == |v.s.sent|
            && HearsFirst(v, c, newer)
            && (c in watchers && Wakeup.Quiet(v.feeders[c].w) ==> |HeardOn(v, c)| == |newer|)
            && v.feeders[c].origin.db.Keys <= StartedOn(v, c).Keys <= v.s.db.Keys
  {
    var v := Run(hash, NewVault(db, watchers), es);
    hide Run, InOrder, LawfulEvents, StoreRuns.Consistent, HearsFirst, FeedStarts.Asked, FeedStarts.Newer, StartedOn;
    FeedStarts.AfterHeadIsNewer(v.s.db, StartedOn(v, c), EntryPrefix(c), v.feeders[c].w.r.opts, []);
    FeedIsSortedPrefix(hash, db, watchers, es, c);
    if c in watchers && Wakeup.Quiet(v.feeders[c].w) {
      FeedIsComplete(hash, db, watchers, es, c);
    }
  }

  // ---------- A feed that is opened again and again ----------

  /** Every open of `c` that this connection has made asks for streaming, with harmless options. */
  predicate OpensHarmlessly(hash: string -> ChannelID, s: Session.Session, c: ChannelID) {
    forall i :: 0 <= i < |s.handled| && SessionRuns.IsOpenOf(hash, s.handled[i], s.handled[i].reqID, c) ==>
      var opts := Session.Translated(s.handled[i].open.value);
      opts.Some? && Wakeup.Harmless(opts.value, EntryPrefix(c))
  }

  /** Then, in whatever order entries arrive and however often the channel is opened, a reader that
      waits with nothing on its way to it has nothing of the channel ahead of it. */
  lemma {:induction false} FeedNeverSleeps(hash: string -> ChannelID, db: Snapshot, watchers: set<ChannelID>,
                                           es: seq<Event>, c: ChannelID)
    requires StoreRuns.Consistent(db) && LawfulEvents(es) && c in watchers
    requires var v := Run(hash, NewVault(db, watchers), es);
             HasLive(v, c) && OpensHarmlessly(hash, v.s, c) && Wakeup.Quiet(v.feeders[c].w)
    ensures Wakeup.Settled(Run(hash, NewVault(db, watchers), es).feeders[c].w)
  {
    var v := Run(hash, NewVault(db, watchers), es);
    StreamsCarryReaders(hash, db, watchers, es, c);
    NewRunOK(hash, db, watchers, c);
    RunKeepsWatched(hash, NewVault(db, watchers), es, c);
    hide Run, LawfulEvents, StoreRuns.Consistent, RunOK, Wakeup.Quiet, OpensHarmlessly;
    QuietReaderIsSettled(hash, v, c);
  }

  lemma QuietReaderIsSettled(hash: string -> ChannelID, v: State, c: ChannelID)
    requires RunOK(hash, v, c) && Watched(v, c) && HasLive(v, c)
    requires OpensHarmlessly(hash, v.s, c) && Wakeup.Quiet(v.feeders[c].w)
    ensures Wakeup.Settled(v.feeders[c].w)
  {
    var f := v.feeders[c];
    hide VaultOK, HeardOK, Lived, Wakeup.Quiet, Wakeup.Harmless, Session.Translated, Wakeup.AheadOnly;
    LiveReader(hash, v, c);
    ReaderWasThere(hash, v, c);
    OwnOptionsAreHarmless(hash, v.s, c, v.s.created[v.s.readers[c]].id, f.w.r.opts);
    forall i | 0 <= i < |f.events| && f.events[i].RequestReset?
      ensures f.events[i].reset.Some? && Wakeup.Harmless(f.events[i].reset.value, EntryPrefix(c))
    {
      RequestedIsNoted(v, c, i);
      ResetIsHarmless(hash, v.s, c, f.events[i].reset);
    }
    Wakeup.NoLostWakeup(f.origin, f.w.r.opts, f.events);
  }

  lemma OwnOptionsAreHarmless(hash: string -> ChannelID, s: Session.Session, c: ChannelID, k: ReqID, opts: StreamOpts)
    requires OpensHarmlessly(hash, s, c) && OpenedWith(hash, s, k, c, opts)
    ensures Wakeup.Harmless(opts, EntryPrefix(c))
  {
    hide Session.Translated, Wakeup.Harmless;
  }

  lemma ResetIsHarmless(hash: string -> ChannelID, s: Session.Session, c: ChannelID, reset: Option<StreamOpts>)
    requires OpensHarmlessly(hash, s, c) && SessionRuns.ResetsAsked(hash, s) && (c, reset) in s.resets
    ensures reset.Some? && Wakeup.Harmless(reset.value, EntryPrefix(c))
  {
    hide Session.Translated, Wakeup.Harmless;
    var i :| 0 <= i < |s.resets| && s.resets[i] == (c, reset);
    assert SessionRuns.AskedReset(hash, s.handled, s.resets[i]);
  }

  // ---------- The limit ----------

  /** On a channel that was opened once, for a live feed or an index replay, the client hears no more
      messages under the open's ID than that open allowed. */
  lemma {:induction false} StreamWithinLimit(hash: string -> ChannelID, db: Snapshot, watchers: set<ChannelID>,
                                             es: seq<Event>, c: ChannelID)
    requires StoreRuns.Consistent(db) && LawfulEvents(es)
    requires var v := Run(hash, NewVault(db, watchers), es); c in v.feeders && OpenedOnce(v.s, c)
    ensures var v := Run(hash, NewVault(db, watchers), es);
            && c in v.s.readers && v.s.readers[c] < |v.s.created| && |v.sources| == |v.s.sent|
            && exists i ::
                 && 0 <= i < |v.s.handled|
                 && SessionRuns.IsOpenOf(hash, v.s.handled[i], v.s.created[v.s.readers[c]].id, c)
                 && |HeardOn(v, c)| <= Guarantees.Asked(v.s.handled[i].open.value)
  {
    var v := Run(hash, NewVault(db, watchers), es);
    StreamsCarryReaders(hash, db, watchers, es, c);
    hide Run, LawfulEvents, StoreRuns.Consistent, VaultOK, Guarantees.Asked, OpenedWith, SessionRuns.ResetsAsked, Heard;
    ReaderWasThere(hash, v, c);
    var i := AskingRequest(hash, v.s, v.s.created[v.s.readers[c]].id, c, v.feeders[c].Options());
    ReaderWithinLimit(hash, v, c, v.s.handled[i].open.value);
  }

  lemma AskingRequest(hash: string -> ChannelID, s: Session.Session, k: ReqID, c: ChannelID, opts: StreamOpts)
    returns (i: nat)
    requires OpenedWith(hash, s, k, c, opts)
    ensures i < |s.handled| && SessionRuns.IsOpenOf(hash, s.handled[i], k, c)
    ensures Session.Translated(s.handled[i].open.value) == Some(opts)
  {
    i :| 0 <= i < |s.handled| && SessionRuns.IsOpenOf(hash, s.handled[i], k, c)
         && Session.Translated(s.handled[i].open.value) == Some(opts);
  }

  lemma ReaderWithinLimit(hash: string -> ChannelID, v: State, c: ChannelID, req: Session.OpenReq)
    requires RunOK(hash, v, c) && c in v.feeders && OpenedOnce(v.s, c)
    requires Session.Translated(req) == Some(v.feeders[c].Options())
    ensures |v.feeders[c].Sent()| <= Guarantees.Asked(req)
  {
    var f := v.feeders[c];
    hide VaultOK, HeardOK, Lived;
    ReaderWasThere(hash, v, c);
    if f.Live? {
      hide Guarantees.Asked, Session.Translated;
      LiveReader(hash, v, c);
      NotedMeansNoReset(v, c);
      Guarantees.LimitAcrossLayers(req, f.origin, f.events, Reader.PickCancel, Reader.PickCancel);
    }
  }

  // ---------- Streams that are never read ----------

  /** No reader publishes for stream `m`, and nothing has come from it. */
  ghost predicate Unread(v: State, m: nat) {
    && m < |v.s.created| && SourcesOK(v)
    && (forall d :: d in v.s.readers ==> v.s.readers[d] != m)
    && (forall j :: 0 <= j < |v.sources| ==> v.sources[j] != Some(m))
  }

  lemma StepKeepsUnread(hash: string -> ChannelID, v: State, e: Event, m: nat)
    requires VaultOK(hash, v) && Unread(v, m) && (e.OtherWrite? ==> Lawful(e.op))
    ensures Unread(Step(hash, v, e), m)
  {
    StepHasFeeders(hash, v, e);
    hide Step, Feeders, VaultOK, Session.Step, Moved;
    var v' := Step(hash, v, e);
    StepKeepsSources(hash, v, e);
    StepKeepsVault(hash, v, e);
    VaultHasStreams(hash, v');
    StepGrows(hash, v, e);
    forall d | d in v'.s.readers ensures v'.s.readers[d] != m {
      StreamAfterStep(hash, v, e, d);
      if d in v.feeders {
        ReaderWasThere(hash, v, d);
      }
    }
    if e.Move? && e.channel in v.feeders {
      MoveSends(hash, v, e.channel, e.pick);
    } else {
      OthersSend(hash, v, e);
    }
  }

  lemma {:induction false} UnreadStays(hash: string -> ChannelID, v: State, es: seq<Event>, m: nat)
    requires VaultOK(hash, v) && Unread(v, m) && LawfulEvents(es)
    ensures VaultOK(hash, Run(hash, v, es)) && Unread(Run(hash, v, es), m)
  {
    if es == [] {
    } else {
      var n := |es| - 1;
      hide Step, VaultOK, Unread;
      UnreadStays(hash, v, es[..n], m);
      StepKeepsVault(hash, Run(hash, v, es[..n]), es[n]);
      StepKeepsUnread(hash, Run(hash, v, es[..n]), es[n], m);
    }
  }

  /** A stream that is opened while the connection still has a reader on its channel, be it cancelled
      already or not, never is the source of any message: what its open asked for goes to that reader
      at best, and is heard under the earlier ID. */
  lemma {:induction false} ReopenedStreamIsSilent(hash: string -> ChannelID, db: Snapshot, watchers: set<ChannelID>,
                                                  before: seq<Event>, req: Session.FeedReq, seconds: Seconds,
                                                  fault: Fault, after: seq<Event>, c: ChannelID)
    requires StoreRuns.Consistent(db) && LawfulEvents(before) && LawfulEvents(after)
    requires var s := Run(hash, NewVault(db, watchers), before).s;
             s.status == Session.Serving && s.pending.None? && OpenOf(hash, req) == Some(c) && c in s.readers
    ensures var v := Run(hash, NewVault(db, watchers), before);
            var v' := Step(hash, v, Request(req, seconds, fault));
            && v'.s.created == v.s.created + [Session.Stream(req.reqID, c, false)]
            && forall j :: 0 <= j < |Run(hash, v', after).sources| ==>
                 Run(hash, v', after).sources[j] != Some(|v.s.created|)
  {
    var v := Run(hash, NewVault(db, watchers), before);
    var v' := Step(hash, v, Request(req, seconds, fault));
    StreamsCarryReaders(hash, db, watchers, before, c);
    hide Run, LawfulEvents, StoreRuns.Consistent, SessionRuns.ResetsAsked, ResetsNoted;
    ReopenedIsUnread(hash, v, req, seconds, fault, c);
    hide Step, VaultOK, HeardOK;
    StepKeepsVault(hash, v, Request(req, seconds, fault));
    UnreadStays(hash, v', after, |v.s.created|);
  }

  lemma HeardHasSources(v: State)
    requires HeardOK(v)
    ensures SourcesOK(v)
  {
  }

  lemma ReopenedIsUnread(hash: string -> ChannelID, v: State, req: Session.FeedReq, seconds: Seconds, fault: Fault,
                         c: ChannelID)
    requires VaultOK(hash, v) && HeardOK(v) && v.s.status == Session.Serving && v.s.pending.None?
    requires OpenOf(hash, req) == Some(c) && c in v.s.readers
    ensures var v' := Step(hash, v, Request(req, seconds, fault));
            v'.s.created == v.s.created + [Session.Stream(req.reqID, c, false)] && Unread(v', |v.s.created|)
  {
    hide Step, Feeders, VaultOK, HeardOK, Session.Step, OpenOf, Effect, Session.Translated;
    var e := Request(req, seconds, fault);
    var v' := Step(hash, v, e);
    RequestIsReceived(hash, v, req, seconds, fault);
    HeardHasSources(v);
    VaultHasStreams(hash, v);
    ReceiveActs(hash, v.s, req, seconds, fault);
    StepKeepsSources(hash, v, e);
    OthersSend(hash, v, e);
    forall d | d in v'.s.readers ensures v'.s.readers[d] != |v.s.created| {
      ReaderWasThere(hash, v, d);
    }
  }

  // ---------- A replay of the index ----------

  /** A replay that is done without having been cancelled, and whose limit is not below the number of
      entries: the client has heard under the open's ID every entry of the snapshot exactly once, in
      the order of arrival, in the form it asked for; and the snapshot has everything that was there
      when the open was handled. */
  lemma {:induction false} ReplayIsHeardWhole(hash: string -> ChannelID, db: Snapshot, watchers: set<ChannelID>,
                                              es: seq<Event>, c: ChannelID)
    requires StoreRuns.Consistent(db) && LawfulEvents(es)
    requires var v := Run(hash, NewVault(db, watchers), es);
             && c in v.feeders && v.feeders[c].Replay? && v.feeders[c].done && !v.feeders[c].cancelled
             && (v.feeders[c].view.Some? ==>
                   |Ascending(Matching(v.feeders[c].view.value.Keys, IndexPrefix(c)))| <= v.feeders[c].opts.max)
    ensures var v := Run(hash, NewVault(db, watchers), es);
            && c in v.s.readers && v.s.readers[c] < |v.s.created| && |v.sources| == |v.s.sent|
            && OpenedWith(hash, v.s, v.s.created[v.s.readers[c]].id, c, v.feeders[c].opts)
            && v.feeders[c].view.Some? && v.feeders[c].begun.Keys <= v.feeders[c].view.value.Keys
            && HearsOnce(v.feeders[c].view.value, c, v.feeders[c].opts.KeysOnly(), v.s.created[v.s.readers[c]].id,
                         HeardOn(v, c))
  {
    var v := Run(hash, NewVault(db, watchers), es);
    StreamsCarryReaders(hash, db, watchers, es, c);
    hide Run, LawfulEvents, StoreRuns.Consistent, Heard;
    ReplayerHeard(hash, v, c);
  }

  /** Message `i` carries the entry of the `i`-th arrival key, and these entries are all those of the
      channel, none of them twice. */
  ghost predicate HearsOnce(view: Snapshot, c: ChannelID, keysOnly: bool, id: ReqID, heard: seq<Msg>) {
    var order := Ascending(Matching(view.Keys, IndexPrefix(c)));
    && |heard| == |order|
    && (forall i :: 0 <= i < |order| ==>
          |order[i]| >= 39 && Carries(heard[i], keysOnly, c, view, EntryKeyFromIndex(c, order[i]), id))
    && (forall i, j :: 0 <= i < j < |order| ==> EntryKeyFromIndex(c, order[i]) != EntryKeyFromIndex(c, order[j]))
    && (forall k :: k in Matching(view.Keys, EntryPrefix(c)) ==>
          exists i :: 0 <= i < |order| && EntryKeyFromIndex(c, order[i]) == k)
  }

  lemma ReplayerHeard(hash: string -> ChannelID, v: State, c: ChannelID)
    requires RunOK(hash, v, c) && c in v.feeders && v.feeders[c].Replay? && v.feeders[c].done && !v.feeders[c].cancelled
    requires v.feeders[c].view.Some? ==>
               |Ascending(Matching(v.feeders[c].view.value.Keys, IndexPrefix(c)))| <= v.feeders[c].opts.max
    ensures c in v.s.readers && v.s.readers[c] < |v.s.created| && |v.sources| == |v.s.sent|
    ensures OpenedWith(hash, v.s, v.s.created[v.s.readers[c]].id, c, v.feeders[c].opts)
    ensures v.feeders[c].view.Some? && v.feeders[c].begun.Keys <= v.feeders[c].view.value.Keys
    ensures HearsOnce(v.feeders[c].view.value, c, v.feeders[c].opts.KeysOnly(), v.s.created[v.s.readers[c]].id,
                      HeardOn(v, c))
  {
    hide VaultOK, OpenedWith, Heard, StoreRuns.Consistent, HearsOnce;
    ReaderWasThere(hash, v, c);
    var f, id := v.feeders[c], v.s.created[v.s.readers[c]].id;
    var view := f.view.value;
    SeeksNothing(hash, v.s, id, c, f.opts);
    assert ReplayOK(f, view, c, v.s.db);
    ReplayIsWhole(f, view, c, v.s.db, id);
  }

  lemma SeeksNothing(hash: string -> ChannelID, s: Session.Session, k: ReqID, c: ChannelID, opts: StreamOpts)
    requires OpenedWith(hash, s, k, c, opts) && opts.FromIndex()
    ensures opts.seek == []
  {
    var i := AskingRequest(hash, s, k, c, opts);
    IndexModeExactly(s.handled[i].open.value);
  }

  lemma ReplayIsWhole(f: Feeder, view: Snapshot, c: ChannelID, db: Snapshot, id: ReqID)
    requires f.Replay? && ReplayOK(f, view, c, db) && f.done && !f.cancelled && f.opts.seek == []
    requires |Ascending(Matching(view.Keys, IndexPrefix(c)))| <= f.opts.max
    ensures HearsOnce(view, c, f.opts.KeysOnly(), id, Stamped(f.out, id))
  {
    hide StoreRuns.IndexAgrees, IndexReplay.ReplayOrder, StoreRuns.Consistent, Projection.SameEntries, Carries,
         StoreRuns.EntriesCarryIDs, IndexReplay.ShowsKey, Matching, EntryKeyFromIndex, IndexPrefix, EntryPrefix;
    var order := IndexReplay.ReplayOrder(view.Keys, c, []);
    FullOrder(view.Keys, c);
    ConsistentParts(view, c);
    Bookmarks.FullReplayCoversChannel(view, c);
    forall i | 0 <= i < |order|
      ensures Carries(f.out[i].(reqID := id), f.opts.KeysOnly(), c, view, EntryKeyFromIndex(c, order[i]), id)
    {
      ShownCarries(view, c, order[i], f.out[i], f.opts.KeysOnly(), id);
    }
  }

  lemma ShownCarries(view: Snapshot, c: ChannelID, a: Bytes, m: Msg, keysOnly: bool, id: ReqID)
    requires StoreRuns.EntriesCarryIDs(view, c) && IndexReplay.ShowsKey(m, a, keysOnly, view, c)
    requires EntryKeyFromIndex(c, a) in Matching(view.Keys, EntryPrefix(c))
    ensures Carries(m.(reqID := id), keysOnly, c, view, EntryKeyFromIndex(c, a), id)
  {
    assert EntryIDFromKey(EntryKeyFromIndex(c, a)) == EntryIDFromIndex(a);
  }

  lemma ConsistentParts(view: Snapshot, c: ChannelID)
    requires StoreRuns.Consistent(view)
    ensures StoreRuns.EntriesCarryIDs(view, c) && StoreRuns.IndexAgrees(view, c)
  {
  }

  lemma FullOrder(keys: set<Bytes>, c: ChannelID)
    ensures IndexReplay.ReplayOrder(keys, c, []) == Ascending(Matching(keys, IndexPrefix(c)))
  {
    SeekInsideIsUnblocked(keys, [], IndexPrefix(c));
    forall a | a in keys && IndexPrefix(c) <= a ensures AtMost(IndexPrefix(c), a) {
      PrefixAtMost(IndexPrefix(c), a);
    }
    assert InRange(keys, [], IndexPrefix(c)) == Matching(keys, IndexPrefix(c));
  }

  /** `n` moves of a replay with nothing ready. */
  ghost function MovedOn(f: Feeder, c: ChannelID, db: Snapshot, n: nat): Feeder {
    if n == 0 then f else Moved(MovedOn(f, c, db, n - 1), c, db, Reader.PickCancel)
  }

  /** A replay that took its snapshot and is not cancelled publishes one entry by each move, as far as
      there are entries and the limit goes, and the move after the last one ends it. */
  lemma {:induction false} ReplayMovesOn(f: Feeder, c: ChannelID, db: Snapshot, n: nat)
    requires f.Replay? && f.view.Some? && !f.cancelled && !f.done && FeederOK(f, c, db) && StoreRuns.Consistent(db)
    requires |f.out| + n <= IndexReplay.KeysInReach(f.view.value, c, f.opts)
    ensures var f' := MovedOn(f, c, db, n);
            && FeederOK(f', c, db) && f'.Replay? && f' == f.(out := f'.out) && |f'.out| == |f.out| + n
            && (|f'.out| == IndexReplay.KeysInReach(f.view.value, c, f.opts) ==>
                  Moved(f', c, db, Reader.PickCancel) == f'.(done := true))
  {
    hide FeederOK, StoreRuns.Consistent;
    if n == 0 {
      ReplayEnds(f, c, db);
    } else {
      ReplayMovesOn(f, c, db, n - 1);
      var f1 := MovedOn(f, c, db, n - 1);
      ReplayPublishes(f1, c, db);
      ReplayEnds(MovedOn(f, c, db, n), c, db);
    }
  }

  lemma ReplayPublishes(f: Feeder, c: ChannelID, db: Snapshot)
    requires f.Replay? && f.view.Some? && !f.cancelled && !f.done && FeederOK(f, c, db) && StoreRuns.Consistent(db)
    requires |f.out| < IndexReplay.KeysInReach(f.view.value, c, f.opts)
    ensures var f' := Moved(f, c, db, Reader.PickCancel);
            f'.Replay? && f' == f.(out := f'.out) && |f'.out| == |f.out| + 1 && FeederOK(f', c, db)
  {
    NextIsShowable(f, f.view.value, c);
    MoveKeepsFeeder(f, c, db, Reader.PickCancel);
    hide FeederOK, StoreRuns.Consistent, IndexReplay.ReplayOrder, IndexReplay.ShowsKey;
  }

  lemma ReplayEnds(f: Feeder, c: ChannelID, db: Snapshot)
    requires f.Replay? && f.view.Some? && !f.cancelled && !f.done && FeederOK(f, c, db)
    ensures |f.out| == IndexReplay.KeysInReach(f.view.value, c, f.opts) ==>
              Moved(f, c, db, Reader.PickCancel) == f.(done := true)
  {
    hide StoreRuns.Consistent, IndexReplay.ReplayOrder, IndexReplay.Shows;
  }
}

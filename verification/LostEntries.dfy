/** Exactly when a reader can sleep through entries: the runs in which it does, and the condition
    that rules them out. */
module LostEntries {
  import opened ByteStrings
  import opened Database
  import opened Keys
  import opened LiveFeed
  import opened Messages
  import opened Reader
  import opened ReaderInvariant
  import opened StreamOptions
  import opened Transactions
  import opened Wakeup

  /** All resets, waiting at the start or requested later, are among these. */
  ghost predicate ResetsAmong(resets: seq<Option<StreamOpts>>, es: seq<Event>, allowed: iset<Option<StreamOpts>>) {
    && (forall i :: 0 <= i < |resets| ==> resets[i] in allowed)
    && (forall i :: 0 <= i < |es| && es[i].RequestReset? ==> es[i].reset in allowed)
  }

  /** In every run of a reader on `c` with options and resets of the given kinds, whose watcher is
      registered at the start as given, a quiet reader has missed nothing. */
  ghost predicate NeverSleepsThrough(c: ChannelID, watching: bool, starts: iset<StreamOpts>,
                                     resets: iset<Option<StreamOpts>>)
  {
    forall w: World, opts: StreamOpts, es: seq<Event> ::
      Initial(w, opts) && w.prefix == EntryPrefix(c) && w.watching == watching && opts in starts
      && LawfulRun(es) && ResetsAmong(w.resets, es, resets) && Quiet(Run(w, es))
      ==> Settled(Run(w, es))
  }

  /** That a quiet reader has missed nothing holds for all runs if, and only if, the watcher is
      registered before the reader starts, and no options that it can start with and no reset that
      can reach it are harmful. (Where a late watcher or resets are at issue the plain options have to
      be among the possible ones, as other options can rule out that anything is ever sent.) */
  lemma {:induction false} WakeupNeedsExactly(c: ChannelID, watching: bool, starts: iset<StreamOpts>,
                                              resets: iset<Option<StreamOpts>>)
    requires PLAIN in starts || (watching && resets == iset{})
    ensures NeverSleepsThrough(c, watching, starts, resets) <==>
              && watching
              && (forall o :: o in starts ==> Harmless(o, EntryPrefix(c)))
              && (forall r :: r in resets ==> r.Some? && Harmless(r.value, EntryPrefix(c)))
  {
    var prefix := EntryPrefix(c);
    hide Harmless, Quiet, Settled, Run, LawfulRun, Initial;
    if !watching {
      LateWatcherLosesEntry(c);
    } else if o :| o in starts && !Harmless(o, prefix) {
      LowSeekLosesEntry(c, o);
    } else if r :| r in resets && !(r.Some? && Harmless(r.value, prefix)) {
      if r.None? {
        NilResetLosesEntry(c);
      } else {
        LowResetLosesEntry(c, r.value);
      }
    } else {
      forall w: World, opts: StreamOpts, es: seq<Event>
        | Initial(w, opts) && w.prefix == prefix && w.watching && opts in starts
          && LawfulRun(es) && ResetsAmong(w.resets, es, resets) && Quiet(Run(w, es))
        ensures Settled(Run(w, es))
      {
        assert HarmlessResets(w.resets, es, prefix);
        NoLostWakeup(w, opts, es);
        WatchedIsSettled(w, es);
      }
    }
  }

  lemma WatchedIsSettled(w: World, es: seq<Event>)
    requires w.watching && AheadOnly(Run(w, es), if w.watching then {} else Run(w, es).unwatched)
    ensures Settled(Run(w, es))
  {
  }

  const PLAIN := StreamOpts([], TAIL, OPT_NONE)

  /** A new subscription to an empty channel whose watcher is not registered yet. */
  function NewWorld(c: ChannelID, opts: StreamOpts): World {
    World(EntryPrefix(c), map[], false, 0, false, [], false, {},
          ReaderState(opts, Fresh, [], [], 0, 0, false, [], Epoch([], [], 0, 0, [], []), [], false))
  }

  function LateAppend(c: ChannelID): Op {
    Op.Append(c, IDOnly([7]), 0, NoFault)
  }

  function LateEvents(c: ChannelID): seq<Event> {
    [Move(PickCancel), Move(PickCancel), Move(PickCancel), Write(LateAppend(c)), Register]
  }

  lemma ParksOnEmpty(c: ChannelID)
    ensures var w := NewWorld(c, PLAIN);
            Run(w, LateEvents(c)[..3]) ==
            w.(r := w.r.(phase := Parked(map[]), max := TAIL, epoch := Epoch([], [], TAIL, 0, [], [])))
  {
    var w, go := NewWorld(c, PLAIN), Move(PickCancel);
    FlagsOff();
    var w1 := Step(w, go);
    assert w1.r == w.r.(phase := Starting, max := TAIL, epoch := Epoch([], [], TAIL, 0, [], []));
    var w2 := Step(w1, go);
    assert w2.r == w1.r.(phase := Iterating(map[], None));
    var w3 := Step(w2, go);
    assert w3.r == w2.r.(phase := Parked(map[]));
    hide Step;
    var none: seq<Event> := [];
    RunSnoc(w, none, go);
    RunSnoc(w, none + [go], go);
    RunSnoc(w, none + [go] + [go], go);
    assert LateEvents(c)[..3] == none + [go] + [go] + [go];
  }

  /** The reader finds the new channel empty and parks, an entry is appended, and only then the
      watcher is registered: nobody will tell the reader. */
  lemma LateWatcherLosesEntry(c: ChannelID)
    ensures Initial(NewWorld(c, PLAIN), PLAIN) && !NewWorld(c, PLAIN).watching && LawfulRun(LateEvents(c))
    ensures NoReset(LateEvents(c)) && NewWorld(c, PLAIN).resets == []
    ensures var w' := Run(NewWorld(c, PLAIN), LateEvents(c)); Quiet(w') && w'.watching && !Settled(w')
  {
    var w, es, key := NewWorld(c, PLAIN), LateEvents(c), EntryKey(c, [7]);
    ParksOnEmpty(c);
    RunSnoc(w, es[..3], es[3]);
    RunSnoc(w, es[..4], es[4]);
    assert es[..3] + [es[3]] == es[..4] && es[..4] + [es[4]] == es;
    hide Run;
    assert EntryID(IDOnly([7])) == Some([7]);
    var w' := Run(w, es);
    assert key in w'.db && w.prefix <= key;
    PrefixAtMost(w.prefix, key);
    assert Ahead(w'.r, w.prefix, key);
    SeekInsideIsUnblocked(w'.db.Keys, [], w.prefix);
  }

  /** A new subscription to a channel with one entry, its watcher at work, while a second open
      without streaming hands it a nil reset. */
  function NilResetWorld(c: ChannelID): World {
    NewWorld(c, PLAIN).(db := Apply(map[], LateAppend(c)), watching := true, resets := [None])
  }

  const RESETTING := [Move(PickReset), Move(PickReset), Move(PickReset)]

  lemma ParksOnNilReset(c: ChannelID)
    ensures var w := NilResetWorld(c);
            Run(w, RESETTING) ==
            w.(resets := [], r := w.r.(phase := Parked(w.db), max := TAIL, cut := true,
                                       epoch := Epoch([], [], TAIL, 0, [], [])))
  {
    var w, go := NilResetWorld(c), Move(PickReset);
    FlagsOff();
    hide Apply, Landing;
    var w1 := Step(w, go);
    assert w1.r == w.r.(phase := Starting, max := TAIL, epoch := Epoch([], [], TAIL, 0, [], []));
    var w2 := Step(w1, go);
    assert w2.r == w1.r.(phase := Iterating(w.db, Landing(w.db.Keys, [], w.prefix)));
    var w3 := Step(w2, go);
    assert w3 == w.(resets := [], r := w2.r.(phase := Parked(w.db), cut := true));
    hide Step;
    var none: seq<Event> := [];
    RunSnoc(w, none, go);
    RunSnoc(w, none + [go], go);
    RunSnoc(w, none + [go] + [go], go);
    assert RESETTING == none + [go] + [go] + [go];
  }

  /** The nil reset makes the reader leave its snapshot at once and park, although the watcher was
      there from the start and the entry was committed before the reader began. */
  lemma NilResetLosesEntry(c: ChannelID)
    ensures Initial(NilResetWorld(c), PLAIN) && NilResetWorld(c).watching && LawfulRun(RESETTING) && NoReset(RESETTING)
    ensures var w' := Run(NilResetWorld(c), RESETTING); Quiet(w') && !Settled(w') && w'.unwatched == {}
  {
    var w, key := NilResetWorld(c), EntryKey(c, [7]);
    ParksOnNilReset(c);
    hide Run;
    assert EntryID(IDOnly([7])) == Some([7]);
    var w' := Run(w, RESETTING);
    assert key in w'.db && w.prefix <= key;
    PrefixAtMost(w.prefix, key);
    assert Ahead(w'.r, w.prefix, key);
    SeekInsideIsUnblocked(w'.db.Keys, [], w.prefix);
  }

  // ---------- Seeks below the channel ----------

  /** A database with one entry of the channel and the seek key itself, which some other keyspace
      uses; an entry ID is short enough for a raw upsert. */
  function LowStore(c: ChannelID, seek: Bytes): Snapshot {
    Apply(map[], LateAppend(c))[seek := Stored(EMPTY_MSG)]
  }

  predicate Low(opts: StreamOpts, c: ChannelID) {
    !Harmless(opts, EntryPrefix(c))
  }

  lemma LowScan(c: ChannelID, seek: Bytes)
    requires !Inside(seek, EntryPrefix(c))
    ensures var keys := LowStore(c, seek).Keys;
            && EntryKey(c, [7]) in keys && EntryPrefix(c) <= EntryKey(c, [7])
            && EntryKey(c, [7]) != seek && AtMost(seek, EntryKey(c, [7]))
            && !OnPrefix(Landing(keys, seek, EntryPrefix(c)), EntryPrefix(c))
  {
    var key, prefix := EntryKey(c, [7]), EntryPrefix(c);
    assert EntryID(IDOnly([7])) == Some([7]);
    assert prefix <= key;
    PrefixAtMost(prefix, key);
    StrictTotalOrder();
    assert key in LowStore(c, seek) && seek in LowStore(c, seek);
    BlockedLandsBelow(LowStore(c, seek).Keys, seek, prefix);
  }

  /** A reader that is about to open such a snapshot with the cursor below the channel parks before
      the entry. */
  lemma ParksBelow(w: World, c: ChannelID)
    requires w.prefix == EntryPrefix(c) && w.r.phase.Starting? && !Inside(w.r.key, w.prefix)
    requires w.db == LowStore(c, w.r.key) && w.r.lastSeen in {[], w.r.key} && w.r.count < w.r.max
    requires !w.offered && w.queued == 0 && !w.cancelled && w.resets == []
    ensures var w' := Moved(Moved(w, PickCancel), PickCancel); Quiet(w') && !Settled(w') && w'.r.out == w.r.out
  {
    LowScan(c, w.r.key);
    hide Landing, LowStore, OnPrefix, EntryKey, Inside;
    var w1 := Moved(w, PickCancel);
    assert w1.r.phase == Iterating(w.db, Landing(w.db.Keys, w.r.key, w.prefix));
    var w2 := Moved(w1, PickCancel);
    assert w2 == w.(r := w1.r.(phase := Parked(w.db)));
    assert Ahead(w2.r, w.prefix, EntryKey(c, [7]));
  }

  function LowSeekWorld(c: ChannelID, opts: StreamOpts): World {
    NewWorld(c, opts).(db := LowStore(c, opts.seek), watching := true)
  }

  const STARTING := [Move(PickCancel), Move(PickCancel), Move(PickCancel)]

  /** Harmful options lose an entry, although the watcher was there and nobody asked for a reset: the
      reader parks on its first snapshot and publishes nothing. */
  lemma LowSeekLosesEntry(c: ChannelID, opts: StreamOpts)
    requires Low(opts, c)
    ensures var w := LowSeekWorld(c, opts);
            && Initial(w, opts) && w.watching && w.resets == [] && w.prefix == EntryPrefix(c)
            && LawfulRun(STARTING) && NoReset(STARTING)
            && Quiet(Run(w, STARTING)) && !Settled(Run(w, STARTING)) && Run(w, STARTING).r.out == []
  {
    var w, go := LowSeekWorld(c, opts), Move(PickCancel);
    var none: seq<Event> := [];
    hide LowStore, Quiet, Settled;
    var w1 := Step(w, go);
    assert w1.r.key == opts.seek && w1.r.lastSeen in {[], opts.seek} && w1.db == w.db;
    ParksBelow(w1, c);
    assert Step(w1, go) == Moved(w1, PickCancel);
    assert Step(Step(w1, go), go) == Moved(Moved(w1, PickCancel), PickCancel);
    hide Step, Moved;
    RunSnoc(w, none, go);
    RunSnoc(w, none + [go], go);
    RunSnoc(w, none + [go] + [go], go);
    assert STARTING == none + [go] + [go] + [go];
  }

  function LowResetWorld(c: ChannelID, reset: StreamOpts): World {
    NewWorld(c, PLAIN).(db := LowStore(c, reset.seek), watching := true, resets := [Some(reset)])
  }

  const REPOSITIONING := RESETTING + [Move(PickCancel), Move(PickCancel)]

  /** So does a harmful reset of a plain reader. */
  lemma LowResetLosesEntry(c: ChannelID, reset: StreamOpts)
    requires Low(reset, c)
    ensures var w := LowResetWorld(c, reset);
            && Initial(w, PLAIN) && w.watching && w.resets == [Some(reset)] && w.prefix == EntryPrefix(c)
            && LawfulRun(REPOSITIONING) && NoReset(REPOSITIONING)
            && Quiet(Run(w, REPOSITIONING)) && !Settled(Run(w, REPOSITIONING))
  {
    hide Run, Moved, Quiet, Settled, LowStore;
    var w := LowResetWorld(c, reset);
    RepositionsBelow(c, reset);
    ParksBelow(Run(w, RESETTING), c);
    RunSnoc(w, RESETTING, Move(PickCancel));
    RunSnoc(w, RESETTING + [Move(PickCancel)], Move(PickCancel));
    assert REPOSITIONING == RESETTING + [Move(PickCancel)] + [Move(PickCancel)];
  }

  lemma RepositionsBelow(c: ChannelID, reset: StreamOpts)
    requires Low(reset, c)
    ensures var w := LowResetWorld(c, reset);
            var w' := Run(w, RESETTING);
            && w'.prefix == w.prefix && w'.r.phase.Starting? && w'.r.key == reset.seek && w'.db == w.db
            && w'.r.lastSeen == [] && w'.r.count < w'.r.max
            && !w'.offered && w'.queued == 0 && !w'.cancelled && w'.resets == []
  {
    var w, go := LowResetWorld(c, reset), Move(PickReset);
    FlagsOff();
    hide LowStore, Landing;
    var w1 := Step(w, go);
    assert w1.r == w.r.(phase := Starting, max := TAIL, epoch := Epoch([], [], TAIL, 0, [], []));
    var w2 := Step(w1, go);
    assert w2.r == w1.r.(phase := Iterating(w.db, Landing(w.db.Keys, [], w.prefix)));
    var w3 := Step(w2, go);
    assert w3.r.key == reset.seek && w3.r.phase == Starting;
    hide Step;
    var none: seq<Event> := [];
    RunSnoc(w, none, go);
    RunSnoc(w, none + [go], go);
    RunSnoc(w, none + [go] + [go], go);
    assert RESETTING == none + [go] + [go] + [go];
  }

  lemma FlagsOff()
    ensures OPT_NONE & OPT_SKIP_FIRST == 0 && OPT_NONE & OPT_FROM_HEAD == 0
  {
  }
}

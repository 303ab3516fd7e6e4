/** The reader never sleeps through an entry, and what that says about complete feeds. */
module Wakeup {
  import opened ByteStrings
  import opened Database
  import opened LiveFeed
  import opened Messages
  import opened Reader
  import opened ReaderInvariant
  import opened StreamOptions
  import opened Transactions

  /** The reader waits and nothing is on its way to it: it is parked, no notification is queued
      or offered, and its context is live. */
  ghost predicate Quiet(w: World) {
    w.r.phase.Parked? && !w.offered && w.queued == 0 && !w.cancelled
  }

  /** No entry of the channel lies ahead of the cursor. */
  ghost predicate Settled(w: World) {
    AheadOnly(w, {})
  }

  /** Of the channel's entries no others lie ahead of the cursor. */
  ghost predicate AheadOnly(w: World, keys: set<Bytes>) {
    forall k :: k in w.db && Ahead(w.r, w.prefix, k) ==> k in keys
  }

  lemma QuietMeansAnnounced(w: World, k: Bytes)
    requires Inv(w) && Quiet(w) && !w.r.cut && !Blocked(w.db.Keys, w.r.key, w.prefix)
    requires k in w.db && Ahead(w.r, w.prefix, k)
    ensures k in w.unwatched
  {
    var view := w.r.phase.view;
    assert Blocked(view.Keys, w.r.key, w.prefix) ==> Blocked(w.db.Keys, w.r.key, w.prefix);
  }

  /** A quiet reader whose last snapshot no nil reset cut short, and whose cursor no key of another
      keyspace blocks, has nothing ahead of its cursor but entries committed before the watcher was
      registered, and nothing at all if it was registered from the start. */
  lemma {:induction false} NothingMissedUnlessCutOrBlocked(w: World, opts: StreamOpts, es: seq<Event>)
    requires Initial(w, opts) && LawfulRun(es) && Quiet(Run(w, es)) && !Run(w, es).r.cut
    requires !Blocked(Run(w, es).db.Keys, Run(w, es).r.key, w.prefix)
    ensures AheadOnly(Run(w, es), if w.watching then {} else Run(w, es).unwatched)
  {
    ReachedInv(w, opts, es);
    PrefixAndOptionsStay(w, es);
    var w' := Run(w, es);
    forall k | k in w'.db && Ahead(w'.r, w'.prefix, k) ensures k in w'.unwatched {
      QuietMeansAnnounced(w', k);
    }
    if w.watching {
      WatcherSeesAll(w, es);
    }
  }

  // ---------- Options that do no harm ----------

  /** No key of another keyspace can lie between the seek key and the prefix. */
  predicate Inside(seek: Bytes, prefix: Bytes) {
    seek == [] || !Less(seek, prefix)
  }

  /** The options start inside the channel's keyspace, unless they allow nothing to be sent. */
  predicate Harmless(opts: StreamOpts, prefix: Bytes) {
    opts.max == 0 || opts.FromHead() || Inside(opts.seek, prefix)
  }

  /** Every reset that waits at the start or is requested later carries options, harmless ones. */
  predicate HarmlessResets(resets: seq<Option<StreamOpts>>, es: seq<Event>, prefix: Bytes) {
    && (forall i :: 0 <= i < |resets| ==> resets[i].Some? && Harmless(resets[i].value, prefix))
    && (forall i :: 0 <= i < |es| && es[i].RequestReset? ==> es[i].reset.Some? && Harmless(es[i].reset.value, prefix))
  }

  /** Neither cut short nor below the prefix, and nothing waits that could change that. */
  ghost predicate Sound(w: World) {
    && !w.r.cut
    && (forall i :: 0 <= i < |w.resets| ==> w.resets[i].Some? && Harmless(w.resets[i].value, w.prefix))
    && (if w.r.phase.Fresh? then Harmless(w.r.opts, w.prefix)
        else w.r.epoch.max == 0 || Inside(w.r.epoch.seek, w.prefix))
  }

  lemma HarmlessStart(opts: StreamOpts, keys: set<Bytes>, prefix: Bytes)
    requires Harmless(opts, prefix)
    ensures opts.max == 0 || Inside(SeekOf(opts, keys, prefix), prefix)
  {
    var head := HeadKey(keys, prefix);
    if head.Some? {
      PrefixAtMost(prefix, head.value);
      LessAntisymmetric(head.value, prefix);
    }
  }

  lemma SelectKeepsSound(w: World, pick: Pick)
    requires Sound(w) && w.r.phase.Iterating?
    ensures Sound(Select(w, pick, w.r.phase.view))
  {
    hide SeekOf, Harmless, Inside;
    if pick.PickReset? && w.resets != [] {
      HarmlessStart(w.resets[0].value, w.db.Keys, w.prefix);
    }
  }

  lemma MoveKeepsSound(w: World, pick: Pick)
    requires Sound(w)
    ensures Sound(Moved(w, pick))
  {
    hide SeekOf, Landing, Harmless, Inside, Select;
    match w.r.phase
    case Fresh => HarmlessStart(w.r.opts, w.db.Keys, w.prefix);
    case Starting =>
    case Iterating(_, _) => SelectKeepsSound(w, pick);
    case Parked(_) =>
    case Returned =>
  }

  lemma StepKeepsSound(w: World, e: Event)
    requires Sound(w) && (e.RequestReset? ==> e.reset.Some? && Harmless(e.reset.value, w.prefix))
    ensures Sound(Step(w, e))
  {
    hide Moved, Harmless, Inside, Apply, Outcome, Written;
    if e.Move? {
      MoveKeepsSound(w, e.pick);
    }
  }

  lemma {:induction false} RunKeepsSound(w: World, es: seq<Event>)
    requires Sound(w) && HarmlessResets(w.resets, es, w.prefix)
    ensures Sound(Run(w, es))
  {
    if es == [] {
    } else {
      var n := |es| - 1;
      PrefixAndOptionsStay(w, es[..n]);
      hide Step, Sound, Harmless;
      RunKeepsSound(w, es[..n]);
      StepKeepsSound(Run(w, es[..n]), es[n]);
    }
  }

  /** A cursor of a sound reader below its limit is blocked by nothing. */
  lemma SoundIsUnblocked(w: World, keys: set<Bytes>)
    requires Sound(w) && EpochsOK(w) && LocalsOK(w.r) && !w.r.phase.Fresh? && w.r.count < w.r.max
    ensures !Blocked(keys, w.r.key, w.prefix)
  {
    var e := w.r.epoch;
    if e.keys != [] {
      assert KeyOK(e, w.prefix, |e.keys| - 1);
      PrefixAtMost(w.prefix, w.r.key);
      LessAntisymmetric(w.r.key, w.prefix);
    }
    SeekInsideIsUnblocked(keys, w.r.key, w.prefix);
  }

  /** No lost wakeup: after any writes, notifications, harmless resets and scheduling, a quiet
      reader with harmless options has nothing ahead of its cursor but entries committed before the
      watcher was registered, and nothing at all if it was registered from the start. */
  lemma {:induction false} NoLostWakeup(w: World, opts: StreamOpts, es: seq<Event>)
    requires Initial(w, opts) && LawfulRun(es) && Quiet(Run(w, es))
    requires Harmless(opts, w.prefix) && HarmlessResets(w.resets, es, w.prefix)
    ensures AheadOnly(Run(w, es), if w.watching then {} else Run(w, es).unwatched)
  {
    RunKeepsSound(w, es);
    ReachedInv(w, opts, es);
    PrefixAndOptionsStay(w, es);
    SoundIsUnblocked(Run(w, es), Run(w, es).db.Keys);
    NothingMissedUnlessCutOrBlocked(w, opts, es);
  }

  lemma {:induction false} WatcherSeesAll(w: World, es: seq<Event>)
    requires w.watching
    ensures Run(w, es).watching && Run(w, es).unwatched == w.unwatched
  {
    if es == [] {
    } else {
      var n := |es| - 1;
      hide Step;
      WatcherSeesAll(w, es[..n]);
      StepFrame(Run(w, es[..n]), es[n]);
    }
  }

  // ---------- A quiet ordered feed is complete ----------

  /** With increasing IDs and no reset, a quiet reader with harmless options has published exactly
      the channel's entries from the start position, in order. */
  lemma {:induction false} QuietFeedIsComplete(w: World, opts: StreamOpts, es: seq<Event>)
    requires Initial(w, opts) && Harmless(opts, w.prefix) && w.resets == [] && w.watching
    requires LawfulRun(es) && NoReset(es) && IncreasingIDs(w, es) && Quiet(Run(w, es))
    ensures var w' := Run(w, es);
            w'.r.epoch.keys ==
            Ascending(FromStart(w'.db.Keys, w.prefix, w'.r.epoch.seek, opts.SkipFirst()))
  {
    var w' := Run(w, es);
    NoLostWakeup(w, opts, es);
    ReachedInv(w, opts, es);
    InitialInv(w, opts);
    InitialSkips(w, opts);
    RunKeepsSkips(w, es);
    SingleEpoch(w, es);
    PrefixAndOptionsStay(w, es);
    RunKeepsInitialParts(w, es);
    hide Initial, LawfulRun, NoReset, IncreasingIDs, SkipsOK, FromStart, ViewsAreInitialParts, Inv;
    QuietEpochIsWhole(w');
    FirstEpochIsDue(w');
  }

  /** A quiet reader with nothing ahead of it has published all that its current epoch had to. */
  lemma QuietEpochIsWhole(w: World)
    requires Inv(w) && Quiet(w) && Settled(w) && ViewsAreInitialParts(w)
    ensures w.r.epoch.keys == Ascending(Due(w))
  {
    EpochIsInitialSegment(w);
    forall k | k in Due(w) ensures k in w.r.epoch.keys {
      SettledMeansPublished(w, k);
    }
    hide Inv, Quiet, Settled, ViewsAreInitialParts, Due;
    SegmentWithAllIsWhole(w.r.epoch.keys, Due(w));
  }

  lemma SettledMeansPublished(w: World, k: Bytes)
    requires Inv(w) && Settled(w) && w.r.phase.Parked? && ViewsAreInitialParts(w) && k in Due(w)
    ensures k in w.r.epoch.keys
  {
    var e := w.r.epoch;
    assert !Ahead(w.r, w.prefix, k);
    if e.keys == [] {
      var x :| x in InRange(w.db.Keys, e.seek, w.prefix) && Less(x, k);
      assert !Ahead(w.r, w.prefix, x);
      LessIrreflexive(k);
    } else {
      var last := e.keys[|e.keys| - 1];
      assert KeyOK(e, w.prefix, |e.keys| - 1) && last != [];
      LessTotal(k, last);
      if k != last {
        NothingDueIsMissed(w, k, last);
      }
    }
  }

  lemma SegmentWithAllIsWhole(xs: seq<Bytes>, s: set<Bytes>)
    requires |xs| <= |Ascending(s)| && xs == Ascending(s)[..|xs|]
    requires forall k :: k in s ==> k in xs
    ensures xs == Ascending(s)
  {
    AscendingEnumerates(s);
    assert Sorted(xs);
    forall x | x in xs ensures x in s {
      assert x in Ascending(s);
    }
    SortedIsAscending(xs, s);
  }

  lemma RunSnoc(w: World, es: seq<Event>, e: Event)
    ensures Run(w, es + [e]) == Step(Run(w, es), e)
  {
    assert (es + [e])[..|es|] == es;
  }
}

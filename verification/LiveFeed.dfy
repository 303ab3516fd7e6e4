/** What subscribers of the live feed can rely on, over whole runs. */
module LiveFeed {
  import opened ByteStrings
  import opened Database
  import opened Reader
  import opened ReaderInvariant
  import opened StreamOptions
  import opened Transactions

  // ---------- Which entries an epoch publishes ----------

  /** The epoch covers `k`: in the channel, at or after the seek position, not the skipped key. */
  ghost predicate Covers(e: Epoch, prefix: Bytes, k: Bytes) {
    prefix <= k && AtMost(SeekTarget(e.seek, prefix), k) && k != e.skip
  }

  /** The cursor has reached or passed `k` in this epoch. */
  ghost predicate Passed(e: Epoch, k: Bytes) {
    e.keys != [] && AtMost(k, e.keys[|e.keys| - 1])
  }

  /** The step at which the cursor reached or passed `k`. */
  ghost function PassedAt(e: Epoch, k: Bytes): (i: nat)
    requires Passed(e, k)
    ensures i < |e.keys| && AtMost(k, e.keys[i])
    ensures i > 0 ==> Less(e.keys[i - 1], k)
  {
    PassedAtFrom(e, k, |e.keys| - 1)
  }

  ghost function PassedAtFrom(e: Epoch, k: Bytes, n: nat): (i: nat)
    requires n < |e.keys| && AtMost(k, e.keys[n])
    ensures i < |e.keys| && AtMost(k, e.keys[i])
    ensures i > 0 ==> Less(e.keys[i - 1], k)
  {
    if n == 0 then 0
    else if AtMost(k, e.keys[n - 1]) then PassedAtFrom(e, k, n - 1)
    else
      LessTotal(k, e.keys[n - 1]);
      n
  }

  /** An entry that the cursor has passed was published exactly when it already was in the
      snapshot in which the cursor passed it: it is missed only by having been committed later. */
  lemma PublishedExactlyWhenInTime(e: Epoch, prefix: Bytes, k: Bytes)
    requires EpochOK(e, prefix) && Covers(e, prefix, k) && Passed(e, k)
    ensures k in e.keys <==> k in e.views[PassedAt(e, k)]
  {
    var p := PassedAt(e, k);
    hide PassedAt, Less;
    if k in e.views[p] {
      assert Wanted(e, prefix, p, k);
      LessAntisymmetric(k, e.keys[p]);
    }
    if k in e.keys {
      assert Sorted(e.keys) && forall i :: 0 <= i < |e.keys| ==> KeyOK(e, prefix, i);
      hide NoGaps, Wanted, Covers;
      SortedPosition(e.keys, p, k);
      assert KeyOK(e, prefix, p);
    }
  }

  lemma SortedPosition(xs: seq<Bytes>, p: nat, k: Bytes)
    requires Sorted(xs) && k in xs && p < |xs| && AtMost(k, xs[p]) && (p > 0 ==> Less(xs[p - 1], k))
    ensures xs[p] == k
  {
    var i :| 0 <= i < |xs| && xs[i] == k;
    hide Less;
    if i < p {
      assert AtMost(xs[i], xs[p - 1]);
      LessAntisymmetric(xs[p - 1], k);
    } else if p < i {
      LessAntisymmetric(xs[p], k);
    }
  }

  // ---------- Runs from a new subscription ----------

  lemma ReachedInv(w: World, opts: StreamOpts, es: seq<Event>)
    requires Initial(w, opts) && LawfulRun(es)
    ensures Inv(Run(w, es))
  {
    InitialInv(w, opts);
    RunKeepsInv(w, es);
  }

  // ---------- Reset epochs ----------

  ghost function Epochs(r: ReaderState): seq<Epoch> {
    r.past + [r.epoch]
  }

  /** The last key that the reader had seen when the epoch ended. */
  ghost function SeenLast(e: Epoch): Bytes {
    if e.keys == [] then e.skip else e.keys[|e.keys| - 1]
  }

  /** What an epoch leaves out at its start: its seek key when the original options skip the
      first entry; otherwise nothing at first, and later the last key seen before the reset. */
  ghost predicate SkipOK(r: ReaderState, j: nat)
    requires j < |Epochs(r)|
  {
    Epochs(r)[j].skip ==
    if r.opts.SkipFirst() then Epochs(r)[j].seek else if j == 0 then [] else SeenLast(Epochs(r)[j - 1])
  }

  ghost predicate SkipsOK(r: ReaderState) {
    forall j :: 0 <= j < |Epochs(r)| ==> SkipOK(r, j)
  }

  lemma RepositionKeepsSkips(r: ReaderState, seek: Bytes, max: U64)
    requires SkipsOK(r) && r.lastSeen == SeenLast(r.epoch)
    ensures SkipsOK(Repositioned(r, seek, max))
  {
    var r' := Repositioned(r, seek, max);
    assert Epochs(r') == Epochs(r) + [r'.epoch];
    assert Epochs(r)[|Epochs(r)| - 1] == r.epoch;
    assert forall j :: 0 <= j < |Epochs(r)| ==> SkipOK(r, j) ==> SkipOK(r', j);
  }

  lemma SameStartsKeepSkips(r: ReaderState, r': ReaderState)
    requires SkipsOK(r) && r'.opts == r.opts && r'.past == r.past
    requires r'.epoch.skip == r.epoch.skip && r'.epoch.seek == r.epoch.seek
    ensures SkipsOK(r')
  {
    forall j | 0 <= j < |Epochs(r')| ensures SkipOK(r', j) {
      assert SkipOK(r, j);
    }
  }

  lemma BeginKeepsSkips(w: World)
    requires Inv(w) && w.r.phase.Fresh?
    ensures SkipsOK(Begin(w.r, w.db.Keys, w.prefix))
  {
  }

  lemma ResetKeepsSkips(w: World, e: Event)
    requires Inv(w) && SkipsOK(w.r) && TakesReset(w, e)
    ensures SkipsOK(Step(w, e).r)
  {
    var opts := w.resets[0].value;
    var r := Repositioned(w.r, SeekOf(opts, w.db.Keys, w.prefix), opts.max);
    assert w.r.lastSeen == SeenLast(w.r.epoch);
    hide SkipsOK, Inv, SeekOf, SeenLast, Step;
    StepFrame(w, e);
    RepositionKeepsSkips(w.r, SeekOf(opts, w.db.Keys, w.prefix), opts.max);
    SameStartsKeepSkips(r, Leave(r, w.r.phase.view));
  }

  lemma StepKeepsSkips(w: World, e: Event)
    requires Inv(w) && SkipsOK(w.r)
    ensures SkipsOK(Step(w, e).r)
  {
    if e.Move? && w.r.phase.Fresh? {
      hide SkipsOK;
      BeginKeepsSkips(w);
    } else if TakesReset(w, e) {
      hide *;
      ResetKeepsSkips(w, e);
    } else {
      StepFrame(w, e);
      assert e.Move? ==> !w.r.phase.Fresh?;
      if w.r.phase.Fresh? {
        assert Step(w, e).r == w.r;
      } else {
        hide SkipsOK, Inv, Step;
        SameStartsKeepSkips(w.r, Step(w, e).r);
      }
    }
  }

  lemma InitialSkips(w: World, opts: StreamOpts)
    requires Initial(w, opts)
    ensures SkipsOK(w.r)
  {
  }

  lemma {:induction false} RunKeepsSkips(w: World, es: seq<Event>)
    requires Inv(w) && SkipsOK(w.r) && LawfulRun(es)
    ensures SkipsOK(Run(w, es).r)
  {
    if es == [] {
    } else {
      var n := |es| - 1;
      hide Step, Inv, SkipsOK;
      RunKeepsSkips(w, es[..n]);
      RunKeepsInv(w, es[..n]);
      StepKeepsSkips(Run(w, es[..n]), es[n]);
    }
  }

  /** A key of the channel between the epoch's seek position and the first key it published. */
  ghost predicate PassedOver(e: Epoch, prefix: Bytes, k: Bytes) {
    e.keys != [] && prefix <= k && AtMost(SeekTarget(e.seek, prefix), k) && Less(k, e.keys[0])
  }

  lemma FirstIsLeastWanted(e: Epoch, prefix: Bytes, k: Bytes)
    requires EpochOK(e, prefix) && e.keys != [] && k in e.views[0] && Wanted(e, prefix, 0, k)
    ensures AtMost(e.keys[0], k)
  {
  }

  /** For any writes, notifications, resets and scheduling: between two resets the published keys
      increase strictly, belong to the channel and start at the epoch's seek position; of the
      first snapshot that yields anything, only the epoch's skipped key can be passed over at the
      start, and without skip-first that is the last key seen before the reset, if anything; and
      nothing is ever published at or above the limit in force. */
  lemma {:induction false} ResetEpochs(w: World, opts: StreamOpts, es: seq<Event>, j: nat)
    requires Initial(w, opts) && LawfulRun(es)
    requires j < |Epochs(Run(w, es).r)|
    ensures var e := Epochs(Run(w, es).r)[j];
            && Sorted(e.keys)
            && (forall k :: k in e.keys ==>
                  k in Run(w, es).db && w.prefix <= k && AtMost(SeekTarget(e.seek, w.prefix), k))
            && |e.views| == |e.keys|
            && (e.keys != [] ==> forall k :: k in e.views[0] && PassedOver(e, w.prefix, k) ==> k == e.skip)
            && (opts.SkipFirst() ==> e.skip == e.seek)
            && (!opts.SkipFirst() ==> e.skip == if j == 0 then [] else SeenLast(Epochs(Run(w, es).r)[j - 1]))
            && (e.keys != [] ==> Published(Run(w, es).r, j) + |e.keys| <= e.max)
  {
    var w' := Run(w, es);
    ReachedInv(w, opts, es);
    InitialInv(w, opts);
    InitialSkips(w, opts);
    RunKeepsSkips(w, es);
    PrefixAndOptionsStay(w, es);
    var e := Epochs(w'.r)[j];
    assert EpochOK(e, w.prefix) && ViewsWithin(e, w'.db);
    PublishedBefore(w'.r, j);
    assert SkipOK(w'.r, j);
    forall k | k in e.keys
      ensures k in w'.db && w.prefix <= k && AtMost(SeekTarget(e.seek, w.prefix), k)
    {
      var i :| 0 <= i < |e.keys| && e.keys[i] == k;
      assert KeyOK(e, w.prefix, i);
    }
    if e.keys != [] {
      forall k | k in e.views[0] && PassedOver(e, w.prefix, k) ensures k == e.skip {
        if k != e.skip {
          LessAntisymmetric(k, e.keys[0]);
          FirstIsLeastWanted(e, w.prefix, k);
        }
      }
    }
  }

  /** How many entries the epochs before the `j`-th published together. */
  ghost function Published(r: ReaderState, j: nat): nat
    requires j <= |Epochs(r)|
  {
    if j == 0 then 0 else Published(r, j - 1) + |Epochs(r)[j - 1].keys|
  }

  lemma {:induction false} PublishedBefore(r: ReaderState, j: nat)
    requires CountsOK(r) && j < |Epochs(r)|
    ensures Published(r, j) == Epochs(r)[j].before
  {
    if j == 0 {
    } else {
      PublishedBefore(r, j - 1);
    }
  }

  lemma {:induction false} PrefixAndOptionsStay(w: World, es: seq<Event>)
    ensures Run(w, es).prefix == w.prefix && Run(w, es).r.opts == w.r.opts
  {
    if es == [] {
    } else {
      var n := |es| - 1;
      hide Step;
      PrefixAndOptionsStay(w, es[..n]);
      StepFrame(Run(w, es[..n]), es[n]);
    }
  }

  // ---------- No reset, increasing IDs: a sorted prefix of the channel ----------

  predicate NoReset(es: seq<Event>) {
    forall i :: 0 <= i < |es| ==> !es[i].RequestReset?
  }

  lemma {:induction false} SingleEpoch(w: World, es: seq<Event>)
    requires w.resets == [] && w.r.past == [] && NoReset(es)
    ensures Run(w, es).resets == [] && Run(w, es).r.past == []
  {
    if es == [] {
    } else {
      var n := |es| - 1;
      hide Step;
      SingleEpoch(w, es[..n]);
      StepFrame(Run(w, es[..n]), es[n]);
    }
  }

  /** Whatever the write adds to the channel's entries sorts after all of them. */
  ghost predicate AtTheEnd(db: Snapshot, prefix: Bytes, op: Op) {
    forall k, x :: k in Matching(Written(db, op), prefix) && x in db && prefix <= x ==> Less(x, k)
  }

  ghost predicate IncreasingIDs(w: World, es: seq<Event>) {
    forall i :: 0 <= i < |es| && es[i].Write? ==> AtTheEnd(Run(w, es[..i]).db, w.prefix, es[i].op)
  }

  /** Entries that the database has beyond the snapshot sort after those of the snapshot. */
  ghost predicate OnlyLaterKeys(view: Snapshot, db: Snapshot, prefix: Bytes) {
    forall k, x :: k in db && k !in view && x in view && prefix <= k && prefix <= x ==> Less(x, k)
  }

  ghost predicate ViewsAreInitialParts(w: World) {
    && (forall i :: 0 <= i < |w.r.epoch.views| ==> OnlyLaterKeys(w.r.epoch.views[i], w.db, w.prefix))
    && (w.r.phase.Iterating? ==> OnlyLaterKeys(w.r.phase.view, w.db, w.prefix))
  }

  lemma WriteKeepsInitialParts(w: World, op: Op)
    requires Inv(w) && ViewsAreInitialParts(w) && Lawful(op) && AtTheEnd(w.db, w.prefix, op)
    ensures ViewsAreInitialParts(Step(w, Write(op)))
  {
    var db' := Apply(w.db, op);
    WriteGrows(w, op);
    forall view: Snapshot | view.Keys <= w.db.Keys && OnlyLaterKeys(view, w.db, w.prefix)
      ensures OnlyLaterKeys(view, db', w.prefix)
    {
      forall k, x | k in db' && k !in view && x in view && w.prefix <= k && w.prefix <= x ensures Less(x, k) {
        assert k in w.db || k in Matching(Written(w.db, op), w.prefix);
      }
    }
  }

  /** Publishing adds the snapshot at hand; nothing else adds to the snapshots of the epoch. */
  lemma AdvanceKeepsInitialParts(w: World)
    requires w.r.phase.Iterating? && ViewsAreInitialParts(w)
    ensures ViewsAreInitialParts(w.(r := Advance(w.r, w.prefix)))
  {
    hide OnlyLaterKeys;
  }

  lemma SelectKeepsInitialParts(w: World, pick: Pick)
    requires w.r.phase.Iterating? && ViewsAreInitialParts(w)
    ensures ViewsAreInitialParts(Select(w, pick, w.r.phase.view))
  {
    hide OnlyLaterKeys;
  }

  lemma OthersKeepInitialParts(w: World, e: Event)
    requires ViewsAreInitialParts(w) && !e.Write?
    ensures ViewsAreInitialParts(Step(w, e))
  {
    if e.Move? {
      assert Step(w, e) == Moved(w, e.pick);
      hide Step;
      if w.r.phase.Iterating? {
        AdvanceKeepsInitialParts(w);
        SelectKeepsInitialParts(w, e.pick);
        LeaveKeepsInitialParts(w);
        hide Advance, Select, Leave, ViewsAreInitialParts;
      } else {
        StartKeepsInitialParts(w, e.pick);
      }
    } else {
      hide Moved, OnlyLaterKeys;
    }
  }

  lemma StartKeepsInitialParts(w: World, pick: Pick)
    requires !w.r.phase.Iterating? && ViewsAreInitialParts(w)
    ensures ViewsAreInitialParts(Moved(w, pick))
  {
    assert OnlyLaterKeys(w.db, w.db, w.prefix);
    hide SeekOf, Landing, Select, Advance, Leave, OnlyLaterKeys;
    match w.r.phase
    case Fresh => assert Moved(w, pick).r.epoch.views == [];
    case Starting => assert Moved(w, pick).r.epoch == w.r.epoch;
    case Parked(_) => assert Moved(w, pick).r.epoch == w.r.epoch;
    case Returned =>
  }

  lemma LeaveKeepsInitialParts(w: World)
    requires w.r.phase.Iterating? && ViewsAreInitialParts(w)
    ensures ViewsAreInitialParts(w.(r := Leave(w.r, w.r.phase.view)))
  {
    hide OnlyLaterKeys;
  }

  lemma {:induction false} RunKeepsInitialParts(w: World, es: seq<Event>)
    requires Inv(w) && ViewsAreInitialParts(w) && LawfulRun(es) && IncreasingIDs(w, es)
    ensures ViewsAreInitialParts(Run(w, es))
  {
    if es == [] {
    } else {
      var n := |es| - 1;
      hide Step, Inv, ViewsAreInitialParts, AtTheEnd;
      assert forall i :: 0 <= i <= n ==> es[..n][..i] == es[..i];
      RunKeepsInitialParts(w, es[..n]);
      RunKeepsInv(w, es[..n]);
      PrefixAndOptionsStay(w, es[..n]);
      if es[n].Write? {
        WriteKeepsInitialParts(Run(w, es[..n]), es[n].op);
      } else {
        OthersKeepInitialParts(Run(w, es[..n]), es[n]);
      }
    }
  }

  /** The channel's entries from the subscription's start: at or after the seek key, and without
      it under skip-first. */
  ghost function FromStart(keys: set<Bytes>, prefix: Bytes, seek: Bytes, skipFirst: bool): set<Bytes> {
    InRange(keys, seek, prefix) - if skipFirst then {seek} else {}
  }

  /** What the current epoch has to publish: the entries from its seek position on, but for the
      skipped key if that is the first of them. */
  ghost function Due(w: World): set<Bytes> {
    set k | k in InRange(w.db.Keys, w.r.epoch.seek, w.prefix)
            && (k == w.r.epoch.skip ==> exists x :: x in InRange(w.db.Keys, w.r.epoch.seek, w.prefix) && Less(x, k))
  }

  lemma PublishedAreDue(w: World, k: Bytes)
    requires EpochsOK(w) && k in w.r.epoch.keys
    ensures k in Due(w)
  {
    var e, prefix := w.r.epoch, w.prefix;
    var i :| 0 <= i < |e.keys| && e.keys[i] == k;
    assert KeyOK(e, prefix, i) && KeyOK(e, prefix, 0);
    var first := e.keys[0];
    assert first in InRange(w.db.Keys, e.seek, prefix) && (i > 0 ==> Less(first, k));
  }

  /** When only later keys were added since, what the cursor has passed was in time. */
  lemma PassedKeysWereInTime(e: Epoch, db: Snapshot, prefix: Bytes, k: Bytes)
    requires EpochOK(e, prefix) && Covers(e, prefix, k) && Passed(e, k) && k in db
    requires OnlyLaterKeys(e.views[PassedAt(e, k)], db, prefix)
    ensures k in e.keys
  {
    PublishedExactlyWhenInTime(e, prefix, k);
    var p := PassedAt(e, k);
    assert KeyOK(e, prefix, p);
    LessAntisymmetric(e.keys[p], k);
  }

  lemma FromStartIsCovered(w: World, k: Bytes)
    requires SkipsOK(w.r) && w.r.past == []
    requires k in FromStart(w.db.Keys, w.prefix, w.r.epoch.seek, w.r.opts.SkipFirst())
    ensures Covers(w.r.epoch, w.prefix, k) && k in w.db
  {
    assert SkipOK(w.r, 0) && Epochs(w.r)[0] == w.r.epoch;
  }

  lemma PassedBelow(e: Epoch, k: Bytes, x: Bytes)
    requires Sorted(e.keys) && x in e.keys && Less(k, x)
    ensures Passed(e, k)
  {
    SortedLast(e.keys, x);
    var last := e.keys[|e.keys| - 1];
    if x != last {
      LessTransitive(k, x, last);
    }
  }

  lemma ViewIsInitialPart(w: World, i: nat)
    requires ViewsAreInitialParts(w) && i < |w.r.epoch.views|
    ensures OnlyLaterKeys(w.r.epoch.views[i], w.db, w.prefix)
  {
  }

  /** Nothing lies between the seek position and the first key but the skipped key, if anything. */
  lemma OnlySkippedBeforeFirst(w: World, y: Bytes)
    requires EpochsOK(w) && ViewsAreInitialParts(w) && w.r.epoch.keys != []
    requires y in InRange(w.db.Keys, w.r.epoch.seek, w.prefix) && Less(y, w.r.epoch.keys[0])
    ensures y == w.r.epoch.skip
  {
    var e := w.r.epoch;
    if y != e.skip {
      PassedBelow(e, y, e.keys[0]);
      ViewIsInitialPart(w, PassedAt(e, y));
      PassedKeysWereInTime(e, w.db, w.prefix, y);
      var i :| 0 <= i < |e.keys| && e.keys[i] == y;
      LessAntisymmetric(e.keys[0], y);
      LessAntisymmetric(y, e.keys[0]);
    }
  }

  /** A key beyond the first one that the cursor has passed was published, skipped key or not. */
  lemma PassedBeyondFirst(w: World, k: Bytes, x: Bytes)
    requires EpochsOK(w) && ViewsAreInitialParts(w) && k in w.db && w.prefix <= k
    requires x in w.r.epoch.keys && Less(k, x) && Less(w.r.epoch.keys[0], k)
    ensures k in w.r.epoch.keys
  {
    var e := w.r.epoch;
    PassedBelow(e, k, x);
    var p := PassedAt(e, k);
    ViewIsInitialPart(w, p);
    assert KeyOK(e, w.prefix, p) && p > 0 by { LessAntisymmetric(e.keys[0], k); }
    LessAntisymmetric(e.keys[p], k);
    assert k in e.views[p];
    assert Wanted(e, w.prefix, p, k) && NoGaps(e, w.prefix);
    LessAntisymmetric(k, e.keys[p]);
  }

  lemma NothingDueIsMissed(w: World, k: Bytes, x: Bytes)
    requires EpochsOK(w) && ViewsAreInitialParts(w) && k in Due(w) && x in w.r.epoch.keys && Less(k, x)
    ensures k in w.r.epoch.keys
  {
    var first := w.r.epoch.keys[0];
    LessTotal(k, first);
    if Less(k, first) {
      OnlySkippedBeforeFirst(w, k);
      var y :| y in InRange(w.db.Keys, w.r.epoch.seek, w.prefix) && Less(y, k);
      LessTransitive(y, k, first);
      OnlySkippedBeforeFirst(w, y);
      LessIrreflexive(y);
    } else if Less(first, k) {
      hide ViewsAreInitialParts, EpochsOK, Less;
      PassedBeyondFirst(w, k, x);
    }
  }

  /** With IDs arriving in increasing order, resets or not: the current epoch has published the first
      ones of what it has to publish. */
  lemma EpochIsInitialSegment(w: World)
    requires EpochsOK(w) && ViewsAreInitialParts(w)
    ensures |w.r.epoch.keys| <= |Ascending(Due(w))| && w.r.epoch.keys == Ascending(Due(w))[..|w.r.epoch.keys|]
  {
    hide Due, ViewsAreInitialParts;
    forall k | k in w.r.epoch.keys ensures k in Due(w) {
      PublishedAreDue(w, k);
    }
    forall k, x | k in Due(w) && x in w.r.epoch.keys && Less(k, x) ensures k in w.r.epoch.keys {
      NothingDueIsMissed(w, k, x);
    }
    InitialSegment(w.r.epoch.keys, Due(w));
  }

  /** In the first epoch that is everything from the start. */
  lemma FirstEpochIsDue(w: World)
    requires SkipsOK(w.r) && w.r.past == []
    ensures Due(w) == FromStart(w.db.Keys, w.prefix, w.r.epoch.seek, w.r.opts.SkipFirst())
  {
    var e := w.r.epoch;
    assert SkipOK(w.r, 0) && Epochs(w.r)[0] == e;
    forall x, k | x in InRange(w.db.Keys, e.seek, w.prefix) && k == e.seek ensures !Less(x, k) {
      LessAntisymmetric(x, k);
      if k == [] {
        LessAntisymmetric(x, []);
      }
    }
  }

  /** With IDs arriving in increasing order and no reset, whatever the interleaving of writes,
      notifications and snapshots, the published keys are the first ones of the channel's sorted
      entries from the start position, at most as many as the limit: no gap and no repeat. */
  lemma {:induction false} LiveFeedIsSortedPrefix(w: World, opts: StreamOpts, es: seq<Event>)
    requires Initial(w, opts) && w.resets == []
    requires LawfulRun(es) && NoReset(es) && IncreasingIDs(w, es)
    ensures var r := Run(w, es).r;
            var s := FromStart(Run(w, es).db.Keys, w.prefix, r.epoch.seek, opts.SkipFirst());
            && |r.epoch.keys| <= opts.max
            && |r.epoch.keys| <= |Ascending(s)|
            && r.epoch.keys == Ascending(s)[..|r.epoch.keys|]
  {
    ReachedInv(w, opts, es);
    InitialInv(w, opts);
    InitialSkips(w, opts);
    RunKeepsSkips(w, es);
    SingleEpoch(w, es);
    PrefixAndOptionsStay(w, es);
    RunKeepsInitialParts(w, es);
    EpochIsInitialSegment(Run(w, es));
    FirstEpochIsDue(Run(w, es));
    FirstEpochOptions(w, opts, es);
    CountsFromZero(Run(w, es).r);
  }

  lemma CountsFromZero(r: ReaderState)
    requires CountsOK(r) && r.past == []
    ensures r.epoch.before == 0
  {
    assert (r.past + [r.epoch])[0] == r.epoch;
  }

  lemma FirstStepOptions(w: World, e: Event)
    requires w.r.phase.Fresh?
    ensures var r, opts := Step(w, e).r, w.r.opts;
            && (r.phase.Fresh? ==> r.epoch == w.r.epoch)
            && (!r.phase.Fresh? ==> r.epoch.max == opts.max && r.epoch.keys == []
                                    && (!opts.FromHead() ==> r.epoch.seek == opts.seek))
  {
  }

  /** Without resets the limit is the one subscribed with, and the start is the seek key given
      unless the subscription starts from the head. */
  lemma {:induction false} FirstEpochOptions(w: World, opts: StreamOpts, es: seq<Event>)
    requires Initial(w, opts) && w.resets == [] && NoReset(es)
    ensures var r := Run(w, es).r;
            && r.past == [] && r.opts == opts
            && (!r.phase.Fresh? ==> r.epoch.max == opts.max && (!opts.FromHead() ==> r.epoch.seek == opts.seek))
            && (r.phase.Fresh? ==> r.epoch.keys == [])
  {
    SingleEpoch(w, es);
    if es == [] {
    } else {
      var n := |es| - 1;
      FirstEpochOptions(w, opts, es[..n]);
      SingleEpoch(w, es[..n]);
      hide Step;
      var w' := Run(w, es[..n]);
      StepFrame(w', es[n]);
      if w'.r.phase.Fresh? {
        FirstStepOptions(w', es[n]);
      }
    }
  }
}

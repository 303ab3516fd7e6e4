/** Where a feed starts, told of the database and the options alone: at a seek key, or at the head
    that the channel had when the reader began or was reset; and how resets reach the reader. */
module FeedStarts {
  import opened ByteStrings
  import opened Database
  import opened LiveFeed
  import opened Messages
  import opened Reader
  import opened ReaderInvariant
  import opened StreamOptions
  import opened Transactions
  import opened Wakeup
  import Projection

  // ---------- Start positions ----------

  /** `k` is at or after the position that the options name: the greatest entry of `db0` when they
      start from the head, else the seek key; the first entry of all when there is no such key. */
  predicate FromPosition(opts: StreamOpts, db0: Snapshot, prefix: Bytes, k: Bytes) {
    && prefix <= k
    && if opts.FromHead() then forall x :: x in db0 && prefix <= x ==> AtMost(x, k)
       else opts.seek == [] || AtMost(opts.seek, k)
  }

  /** And `k`, at or after the position, is that very key. */
  predicate IsPosition(opts: StreamOpts, db0: Snapshot, k: Bytes) {
    if opts.FromHead() then k in db0 else k == opts.seek
  }

  /** What a reader that takes up its position on `db0` has to publish of `db`: everything from the
      position on, without it under skip-first, and else without the key seen last if that comes
      first. */
  ghost function Asked(db: Snapshot, db0: Snapshot, prefix: Bytes, opts: StreamOpts, skipFirst: bool,
                       lastSeen: Bytes): set<Bytes>
  {
    set k | k in db && FromPosition(opts, db0, prefix, k)
            && if skipFirst then !IsPosition(opts, db0, k)
               else k == lastSeen ==> exists x :: x in db && FromPosition(opts, db0, prefix, x) && Less(x, k)
  }

  /** The entries greater than all that the channel had. */
  ghost function Newer(db: Snapshot, db0: Snapshot, prefix: Bytes): set<Bytes> {
    set k | k in db && prefix <= k && forall x :: x in db0 && prefix <= x ==> Less(x, k)
  }

  /** For a start after the head that is what the reader has to publish. */
  lemma AfterHeadIsNewer(db: Snapshot, db0: Snapshot, prefix: Bytes, opts: StreamOpts, lastSeen: Bytes)
    requires opts.FromHead()
    ensures Asked(db, db0, prefix, opts, true, lastSeen) == Newer(db, db0, prefix)
  {
    forall k | k in db && prefix <= k
      ensures FromPosition(opts, db0, prefix, k) && !IsPosition(opts, db0, k) <==>
                forall x :: x in db0 && prefix <= x ==> Less(x, k)
    {
      LessIrreflexive(k);
    }
  }

  lemma PositionIsSeek(opts: StreamOpts, db0: Snapshot, prefix: Bytes, k: Bytes)
    requires prefix <= k && prefix != []
    ensures var seek := SeekOf(opts, db0.Keys, prefix);
            && (FromPosition(opts, db0, prefix, k) <==> AtMost(SeekTarget(seek, prefix), k))
            && (FromPosition(opts, db0, prefix, k) ==> (IsPosition(opts, db0, k) <==> k == seek))
  {
    PrefixAtMost(prefix, k);
    if opts.FromHead() {
      var head := HeadKey(db0.Keys, prefix);
      if head.Some? {
        assert head.value in Matching(db0.Keys, prefix);
        if AtMost(head.value, k) {
          forall x | x in db0 && prefix <= x ensures AtMost(x, k) {
            assert x in Matching(db0.Keys, prefix);
            if x != head.value && head.value != k {
              LessTransitive(x, head.value, k);
            }
          }
          if k in db0 {
            assert k in Matching(db0.Keys, prefix);
            LessAntisymmetric(k, head.value);
          }
        }
      } else {
        assert forall x :: x in db0 && prefix <= x ==> x in Matching(db0.Keys, prefix);
      }
    }
  }

  /** An epoch that took up its position on `db0` has to publish what was asked for. */
  lemma DueIsAsked(w: World, opts: StreamOpts, db0: Snapshot, lastSeen: Bytes)
    requires w.r.epoch.seek == SeekOf(opts, db0.Keys, w.prefix)
    requires w.r.epoch.skip == if w.r.opts.SkipFirst() then w.r.epoch.seek else lastSeen
    ensures Due(w) == Asked(w.db, db0, w.prefix, opts, w.r.opts.SkipFirst(), lastSeen)
  {
    var e, prefix := w.r.epoch, w.prefix;
    RangeIsFromPosition(w.db, opts, db0, prefix, e.seek);
    SeekIsFirst(w.db.Keys, e.seek, prefix);
    hide FromPosition, IsPosition, SeekOf, Less, InRange;
    var inRange := InRange(w.db.Keys, e.seek, prefix);
    forall k | k in inRange ensures k in Due(w) <==> k in Asked(w.db, db0, prefix, opts, w.r.opts.SkipFirst(), lastSeen) {
    }
  }

  lemma RangeIsFromPosition(db: Snapshot, opts: StreamOpts, db0: Snapshot, prefix: Bytes, seek: Bytes)
    requires prefix != [] && seek == SeekOf(opts, db0.Keys, prefix)
    ensures forall k :: k in InRange(db.Keys, seek, prefix) <==> k in db && FromPosition(opts, db0, prefix, k)
    ensures forall k :: k in InRange(db.Keys, seek, prefix) ==> (IsPosition(opts, db0, k) <==> k == seek)
  {
    FromPositionIsInside(opts, db0, prefix);
    forall k | prefix <= k
      ensures FromPosition(opts, db0, prefix, k) <==> AtMost(SeekTarget(seek, prefix), k)
      ensures FromPosition(opts, db0, prefix, k) ==> (IsPosition(opts, db0, k) <==> k == seek)
    {
      PositionIsSeek(opts, db0, prefix, k);
    }
    hide FromPosition, IsPosition, SeekOf, AtMost;
  }

  lemma SeekIsFirst(keys: set<Bytes>, seek: Bytes, prefix: Bytes)
    requires prefix != []
    ensures forall x :: x in InRange(keys, seek, prefix) ==> !Less(x, seek)
  {
    forall x | x in InRange(keys, seek, prefix) ensures !Less(x, seek) {
      LessAntisymmetric(x, seek);
    }
  }

  lemma FromPositionIsInside(opts: StreamOpts, db0: Snapshot, prefix: Bytes)
    ensures forall k :: FromPosition(opts, db0, prefix, k) ==> prefix <= k
  {
  }

  // ---------- A feed from its start ----------

  /** How many events come before the reader's first move, with which it takes up its position. */
  function FirstMove(es: seq<Event>): (n: nat)
    ensures n <= |es|
  {
    if es == [] || es[0].Move? then 0 else 1 + FirstMove(es[1..])
  }

  /** The database at that moment; the present one as long as there was no move. */
  ghost function StartStore(w: World, es: seq<Event>): Snapshot {
    Run(w, es[..FirstMove(es)]).db
  }

  lemma {:induction false} FirstMoveIsFirst(es: seq<Event>)
    ensures forall i :: 0 <= i < FirstMove(es) ==> !es[i].Move?
    ensures FirstMove(es) < |es| ==> es[FirstMove(es)].Move?
  {
    if es == [] || es[0].Move? {
    } else {
      FirstMoveIsFirst(es[1..]);
    }
  }

  lemma FirstMoveStays(es: seq<Event>, n: nat)
    requires n <= |es|
    ensures FirstMove(es[..n]) == if FirstMove(es) < n then FirstMove(es) else n
  {
    FirstMoveIsFirst(es);
    FirstMoveIsFirst(es[..n]);
    assert FirstMove(es[..n]) < n ==> es[..n][FirstMove(es[..n])] == es[FirstMove(es[..n])];
    assert forall i :: 0 <= i < n ==> es[..n][i] == es[i];
  }

  lemma MoveLeavesFresh(w: World, e: Event)
    requires w.r.phase.Fresh?
    ensures Step(w, e).r.phase.Fresh? <==> !e.Move?
    ensures e.Move? ==> Step(w, e).r.epoch.seek == SeekOf(w.r.opts, w.db.Keys, w.prefix)
  {
    hide SeekOf, Apply, Outcome, Written;
  }

  lemma {:induction false} SeekIsFixed(w: World, opts: StreamOpts, es: seq<Event>)
    requires Initial(w, opts) && w.resets == [] && NoReset(es)
    ensures Run(w, es).r.phase.Fresh? <==> FirstMove(es) == |es|
    ensures FirstMove(es) < |es| ==> Run(w, es).r.epoch.seek == SeekOf(opts, StartStore(w, es).Keys, w.prefix)
  {
    if es == [] {
    } else {
      var n := |es| - 1;
      FirstMoveStays(es, n);
      assert FirstMove(es) < |es| && FirstMove(es) == n ==> es[n].Move? by { FirstMoveIsFirst(es); }
      assert FirstMove(es) == |es| ==> !es[n].Move? by { FirstMoveIsFirst(es); }
      assert FirstMove(es) < n ==> es[..n][..FirstMove(es)] == es[..FirstMove(es)];
      assert w.r.opts == opts && w.r.past == [];
      assert Run(w, es) == Step(Run(w, es[..n]), es[n]);
      hide Step, SeekOf, Initial, FirstMove, NoReset, Run;
      assert NoReset(es[..n]) && !es[n].RequestReset? by { NoResetBefore(es, n); }
      SeekIsFixed(w, opts, es[..n]);
      SingleEpoch(w, es[..n]);
      PrefixAndOptionsStay(w, es[..n]);
      SeekStaysOrBegins(Run(w, es[..n]), es[n]);
    }
  }

  lemma NoResetBefore(es: seq<Event>, n: nat)
    requires NoReset(es) && n < |es|
    ensures NoReset(es[..n]) && !es[n].RequestReset?
  {
  }

  lemma SeekStaysOrBegins(w: World, e: Event)
    requires w.resets == [] && !e.RequestReset?
    ensures Step(w, e).r.phase.Fresh? <==> w.r.phase.Fresh? && !e.Move?
    ensures w.r.phase.Fresh? && e.Move? ==> Step(w, e).r.epoch.seek == SeekOf(w.r.opts, w.db.Keys, w.prefix)
    ensures !w.r.phase.Fresh? ==> Step(w, e).r.epoch.seek == w.r.epoch.seek
  {
    hide Step, SeekOf;
    StepFrame(w, e);
    if w.r.phase.Fresh? {
      MoveLeavesFresh(w, e);
    }
  }

  lemma FirstEpochIsAsked(w: World, opts: StreamOpts, es: seq<Event>)
    requires Initial(w, opts) && w.resets == [] && LawfulRun(es) && NoReset(es) && FirstMove(es) < |es|
    ensures var w' := Run(w, es);
            Due(w') == Asked(w'.db, StartStore(w, es), w.prefix, opts, opts.SkipFirst(), [])
  {
    SeekIsFixed(w, opts, es);
    InitialInv(w, opts);
    InitialSkips(w, opts);
    assert w.r.opts == opts && w.r.past == [];
    hide Run, Initial, NoReset, FirstMove, Inv, SkipsOK, StartStore, SeekOf, Due, Asked;
    RunKeepsSkips(w, es);
    SingleEpoch(w, es);
    PrefixAndOptionsStay(w, es);
    FirstSkip(Run(w, es).r);
    DueIsAsked(Run(w, es), opts, StartStore(w, es), []);
  }

  lemma FirstSkip(r: ReaderState)
    requires SkipsOK(r) && r.past == []
    ensures r.epoch.skip == if r.opts.SkipFirst() then r.epoch.seek else []
  {
    assert SkipOK(r, 0) && Epochs(r)[0] == r.epoch;
  }

  /** With IDs arriving in increasing order and no reset, the published keys are the first ones, in
      order, of what the options ask for at the position that the reader took up, and within the
      limit. */
  lemma {:induction false} FeedFromStart(w: World, opts: StreamOpts, es: seq<Event>)
    requires Initial(w, opts) && w.resets == []
    requires LawfulRun(es) && NoReset(es) && IncreasingIDs(w, es)
    ensures var keys := Run(w, es).r.epoch.keys;
            var all := Ascending(Asked(Run(w, es).db, StartStore(w, es), w.prefix, opts, opts.SkipFirst(), []));
            |keys| <= opts.max && |keys| <= |all| && keys == all[..|keys|]
  {
    LiveFeedIsSortedPrefix(w, opts, es);
    SeekIsFixed(w, opts, es);
    FirstEpochOptions(w, opts, es);
    if FirstMove(es) < |es| {
      ReachedInv(w, opts, es);
      InitialInv(w, opts);
      RunKeepsInitialParts(w, es);
      EpochIsInitialSegment(Run(w, es));
      FirstEpochIsAsked(w, opts, es);
    }
  }

  /** And all of it when the reader is quiet, under an early watcher and harmless options. */
  lemma {:induction false} QuietFeedFromStart(w: World, opts: StreamOpts, es: seq<Event>)
    requires Initial(w, opts) && Harmless(opts, w.prefix) && w.resets == [] && w.watching
    requires LawfulRun(es) && NoReset(es) && IncreasingIDs(w, es) && Quiet(Run(w, es))
    ensures Run(w, es).r.epoch.keys ==
            Ascending(Asked(Run(w, es).db, StartStore(w, es), w.prefix, opts, opts.SkipFirst(), []))
  {
    NoLostWakeup(w, opts, es);
    SeekIsFixed(w, opts, es);
    ReachedInv(w, opts, es);
    InitialInv(w, opts);
    RunKeepsInitialParts(w, es);
    hide Initial, LawfulRun, NoReset, IncreasingIDs, ViewsAreInitialParts, Inv, Run;
    QuietEpochIsWhole(Run(w, es));
    FirstEpochIsAsked(w, opts, es);
  }

  /** A subscription after the head publishes, first to last, exactly the entries greater than all
      that the channel had when the reader took up its position: on an empty channel everything. */
  lemma {:induction false} FeedAfterHead(w: World, opts: StreamOpts, es: seq<Event>)
    requires Initial(w, opts) && opts.FromHead() && opts.SkipFirst() && w.resets == []
    requires LawfulRun(es) && NoReset(es) && IncreasingIDs(w, es)
    ensures var keys, all := Run(w, es).r.epoch.keys, Ascending(Newer(Run(w, es).db, StartStore(w, es), w.prefix));
            && |keys| <= opts.max && |keys| <= |all| && keys == all[..|keys|]
            && (w.watching && Quiet(Run(w, es)) ==> keys == all)
  {
    AfterHeadIsNewer(Run(w, es).db, StartStore(w, es), w.prefix, opts, []);
    FeedFromStart(w, opts, es);
    if w.watching && Quiet(Run(w, es)) {
      hide Run, Initial, LawfulRun, NoReset, IncreasingIDs, Quiet;
      QuietFeedFromStart(w, opts, es);
    }
  }

  // ---------- A feed from its last reset ----------

  lemma {:induction false} SeekStays(w: World, es: seq<Event>)
    requires !w.r.phase.Fresh? && w.resets == [] && NoReset(es)
    ensures var r := Run(w, es).r;
            !r.phase.Fresh? && r.past == w.r.past && r.epoch.seek == w.r.epoch.seek && r.epoch.skip == w.r.epoch.skip
    ensures Run(w, es).resets == []
  {
    if es == [] {
    } else {
      var n := |es| - 1;
      hide Step;
      SeekStays(w, es[..n]);
      StepFrame(Run(w, es[..n]), es[n]);
      assert !TakesReset(Run(w, es[..n]), es[n]);
    }
  }

  lemma {:induction false} RunSplits(w: World, a: seq<Event>, b: seq<Event>)
    ensures Run(w, a + b) == Run(Run(w, a), b)
  {
    hide Step;
    if b == [] {
      assert a + b == a;
    } else {
      var n := |b| - 1;
      RunSplits(w, a, b[..n]);
      assert (a + b)[..|a + b| - 1] == a + b[..n];
      assert (a + b)[|a + b| - 1] == b[n];
    }
  }

  /** What a reset with the given options makes of the current epoch. */
  lemma ResetBegins(w: World)
    requires TakesReset(w, Move(PickReset))
    ensures var w', opts := Step(w, Move(PickReset)), w.resets[0].value;
            && !w'.r.phase.Fresh? && w'.prefix == w.prefix && w'.db == w.db && w'.resets == w.resets[1..]
            && w'.r.opts == w.r.opts && w'.r.out == w.r.out && w'.r.past == w.r.past + [w.r.epoch]
            && w'.r.epoch.keys == [] && w'.r.epoch.max == opts.max && w'.r.epoch.before == w.r.count
            && w'.r.epoch.seek == SeekOf(opts, w.db.Keys, w.prefix)
            && w'.r.epoch.skip == if w.r.opts.SkipFirst() then w'.r.epoch.seek else w.r.lastSeen
  {
    assert Step(w, Move(PickReset)) == Select(w, PickReset, w.r.phase.view);
    hide SeekOf, Step;
  }

  lemma {:induction false} EpochStays(w: World, es: seq<Event>)
    requires !w.r.phase.Fresh? && w.resets == [] && NoReset(es)
    ensures var r := Run(w, es).r;
            r.past == w.r.past && r.epoch.max == w.r.epoch.max && Run(w, es).resets == []
  {
    if es == [] {
    } else {
      var n := |es| - 1;
      hide Step;
      EpochStays(w, es[..n]);
      SeekStays(w, es[..n]);
      StepFrame(Run(w, es[..n]), es[n]);
      assert !TakesReset(Run(w, es[..n]), es[n]);
    }
  }

  lemma SameCounts(r: ReaderState, r': ReaderState)
    requires CountsOK(r) && CountsOK(r') && r'.past == r.past
    ensures r'.epoch.before == r.epoch.before
  {
    var n := |r.past|;
    assert (r.past + [r.epoch])[n] == r.epoch && (r'.past + [r'.epoch])[n] == r'.epoch;
    if n > 0 {
      assert (r.past + [r.epoch])[n - 1] == (r'.past + [r'.epoch])[n - 1];
    }
  }

  lemma LastKeys(r: ReaderState, r': ReaderState)
    requires r'.past == r.past + [r.epoch]
    ensures Projection.AllKeys(r') == Projection.AllKeys(r) + r'.epoch.keys
  {
    assert r'.past[..|r'.past| - 1] == r.past;
  }

  lemma LawfulPrefix(a: seq<Event>, b: seq<Event>)
    requires LawfulRun(a + b)
    ensures LawfulRun(a)
  {
    forall i | 0 <= i < |a| && a[i].Write? ensures Lawful(a[i].op) {
      assert (a + b)[i] == a[i];
    }
  }

  /** After a reset with options that is the last one, with IDs in order: what is published from then
      on is the first ones, in order, of what these options ask for at the position taken up at the
      reset, under the original skip-first flag and within the new limit, which counts everything
      published before. All of it when the reader is quiet, under an early watcher and harmless
      options and resets. */
  lemma {:induction false} FeedFromReset(w: World, opts: StreamOpts, before: seq<Event>, after: seq<Event>)
    requires Initial(w, opts) && LawfulRun(before + [Move(PickReset)] + after)
    requires IncreasingIDs(w, before + [Move(PickReset)] + after)
    requires TakesReset(Run(w, before), Move(PickReset)) && |Run(w, before).resets| == 1 && NoReset(after)
    ensures var w1, w' := Run(w, before), Run(w, before + [Move(PickReset)] + after);
            var reset, keys := w1.resets[0].value, w'.r.epoch.keys;
            var all := Ascending(Asked(w'.db, w1.db, w.prefix, reset, opts.SkipFirst(), w1.r.lastSeen));
            && Projection.AllKeys(w'.r) == Projection.AllKeys(w1.r) + keys
            && |keys| <= |all| && keys == all[..|keys|]
            && (keys != [] ==> w1.r.count + |keys| <= reset.max)
            && (Quiet(w') && w.watching && Harmless(opts, w.prefix)
                && HarmlessResets(w.resets, before + [Move(PickReset)] + after, w.prefix)
                ==> keys == all)
  {
    var es := before + [Move(PickReset)] + after;
    var w1, w' := Run(w, before), Run(w, es);
    var begun := Step(w1, Move(PickReset));
    RunSplits(w, before + [Move(PickReset)], after);
    RunSnoc(w, before, Move(PickReset));
    PrefixAndOptionsStay(w, before);
    PrefixAndOptionsStay(w, es);
    ResetBegins(w1);
    SeekStays(begun, after);
    EpochStays(begun, after);
    ReachedInv(w, opts, es);
    InitialInv(w, opts);
    RunKeepsInitialParts(w, es);
    assert LawfulRun(before + [Move(PickReset)]) by { LawfulPrefix(before + [Move(PickReset)], after); }
    ReachedInv(w, opts, before + [Move(PickReset)]);
    SameCounts(begun.r, w'.r);
    LastKeys(w1.r, w'.r);
    assert EpochsOK(w') && EpochOK(w'.r.epoch, w.prefix);
    hide Step, Inv, ViewsAreInitialParts, SeekOf, TakesReset, Initial, LawfulRun, IncreasingIDs, Run;
    DueIsAsked(w', w1.resets[0].value, w1.db, w1.r.lastSeen);
    EpochIsInitialSegment(w');
    if Quiet(w') && w.watching && Harmless(opts, w.prefix) && HarmlessResets(w.resets, es, w.prefix) {
      NoLostWakeup(w, opts, es);
      QuietEpochIsWhole(w');
    }
  }

  // ---------- Resets are served in order ----------

  /** The reader takes the first of the waiting resets, be it nil or not. */
  ghost predicate Serves(w: World, e: Event) {
    e.Move? && e.pick.PickReset? && w.r.phase.Iterating? && w.r.count < w.r.max && w.resets != []
  }

  ghost function Served(w: World, es: seq<Event>): seq<Option<StreamOpts>> {
    if es == [] then []
    else
      var n := |es| - 1;
      var w' := Run(w, es[..n]);
      Served(w, es[..n]) + if Serves(w', es[n]) then [w'.resets[0]] else []
  }

  function Requested(es: seq<Event>): seq<Option<StreamOpts>> {
    if es == [] then []
    else
      var n := |es| - 1;
      Requested(es[..n]) + if es[n].RequestReset? then [es[n].reset] else []
  }

  lemma StepServes(w: World, e: Event)
    ensures if e.RequestReset? then Step(w, e).resets == w.resets + [e.reset]
            else if Serves(w, e) then [w.resets[0]] + Step(w, e).resets == w.resets
            else Step(w, e).resets == w.resets
  {
    hide SeekOf, Landing, Apply, Outcome, Written, Leave, Repositioned, Begin;
  }

  /** No reset is lost, made up or served out of order: those served and those that wait are those
      that waited at the start and those requested since. */
  lemma {:induction false} ResetsAreServedInOrder(w: World, es: seq<Event>)
    ensures Served(w, es) + Run(w, es).resets == w.resets + Requested(es)
  {
    if es == [] {
    } else {
      var n := |es| - 1;
      hide Step, Serves;
      ResetsAreServedInOrder(w, es[..n]);
      var w' := Run(w, es[..n]);
      StepServes(w', es[n]);
      Conserved(Served(w, es[..n]), w'.resets, w.resets, Requested(es[..n]), Step(w', es[n]).resets,
                if Serves(w', es[n]) then [w'.resets[0]] else [], if es[n].RequestReset? then [es[n].reset] else []);
    }
  }

  lemma Conserved(served: seq<Option<StreamOpts>>, waiting: seq<Option<StreamOpts>>, first: seq<Option<StreamOpts>>,
                  requested: seq<Option<StreamOpts>>, waiting': seq<Option<StreamOpts>>,
                  taken: seq<Option<StreamOpts>>, added: seq<Option<StreamOpts>>)
    requires served + waiting == first + requested && taken + waiting' == waiting + added
    ensures (served + taken) + waiting' == first + (requested + added)
  {
    assert (served + taken) + waiting' == served + (taken + waiting');
    assert served + (waiting + added) == (served + waiting) + added;
    assert (first + requested) + added == first + (requested + added);
  }
}

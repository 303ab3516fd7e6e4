/** What the published messages contain: the keys chosen by the reader, rendered from the entries
    that are in the database; and how a keys-only stream relates to a full one. */
module Projection {
  import opened ByteStrings
  import opened Database
  import opened Keys
  import opened LiveFeed
  import opened Messages
  import opened Reader
  import opened ReaderInvariant
  import opened StoreRuns
  import opened StreamOptions
  import opened Transactions

  /** Every key published so far, over all epochs. */
  ghost function AllKeys(r: ReaderState): seq<Bytes> {
    Joined(r.past) + r.epoch.keys
  }

  ghost function Joined(es: seq<Epoch>): seq<Bytes> {
    if es == [] then [] else Joined(es[..|es| - 1]) + es[|es| - 1].keys
  }

  /** Each message out is its key's entry, as the database has it now, rendered in the mode of
      the subscription. */
  ghost predicate OutOK(w: World) {
    && |w.r.out| == |AllKeys(w.r)|
    && (forall i :: 0 <= i < |w.r.out| ==>
          && AllKeys(w.r)[i] in w.db && w.prefix <= AllKeys(w.r)[i]
          && w.r.out[i] == Rendered(w.r.opts.KeysOnly(), w.db, AllKeys(w.r)[i]))
    && (w.r.phase.Iterating? ==> SameEntries(w.r.phase.view, w.db, w.prefix))
  }

  ghost predicate SameEntries(view: Snapshot, db: Snapshot, prefix: Bytes) {
    forall k :: k in view && prefix <= k ==> k in db && db[k] == view[k]
  }

  /** A lawful write never touches an entry that is already there. */
  lemma WriteKeepsEntries(db: Snapshot, op: Op, prefix: Prefix)
    requires Lawful(op)
    ensures SameEntries(db, Apply(db, op), prefix)
  {
    if op.Append? && Outcome(db, op).None? {
      var arrival := ArrivalKey(op.channel, EntryID(op.entry).value, op.seconds);
      assert arrival[32] == KEYSPACE_ARRIVAL;
    }
  }

  lemma WriteKeepsOut(w: World, op: Op)
    requires OutOK(w) && Lawful(op)
    ensures OutOK(Step(w, Write(op)))
  {
    WriteKeepsEntries(w.db, op, w.prefix);
    hide Apply, Outcome, Written;
    assert AllKeys(Step(w, Write(op)).r) == AllKeys(w.r);
  }

  lemma AdvanceKeepsOut(w: World)
    requires OutOK(w) && IteratorOK(w) && w.r.phase.Iterating?
    ensures OutOK(w.(r := Advance(w.r, w.prefix)))
  {
    var r' := Advance(w.r, w.prefix);
    if r'.out != w.r.out {
      var k := w.r.phase.at.value;
      assert k in w.r.phase.view && w.prefix <= k && k in w.db && w.db[k] == w.r.phase.view[k];
      assert r'.past == w.r.past && r'.epoch.keys == w.r.epoch.keys + [k];
      assert AllKeys(r') == AllKeys(w.r) + [k];
      hide IteratorOK, Landing, Joined, AllKeys, Matching;
    } else {
      assert r'.past == w.r.past && r'.epoch.keys == w.r.epoch.keys;
      assert SameOutput(w, w.(r := r'));
      hide *;
      SameOutputKeepsOut(w, w.(r := r'));
    }
  }

  lemma ResetKeepsOut(w: World, e: Event)
    requires OutOK(w) && TakesReset(w, e)
    ensures OutOK(Step(w, e))
  {
    var w' := Step(w, e);
    ResetFrame(w, e);
    hide Step, TakesReset, SameEntries, Rendered;
    assert w'.r.past[..|w.r.past|] == w.r.past;
    assert AllKeys(w'.r) == AllKeys(w.r);
  }

  lemma ResetFrame(w: World, e: Event)
    requires TakesReset(w, e)
    ensures var w' := Step(w, e);
            && w'.db == w.db && w'.prefix == w.prefix && !w'.r.phase.Iterating?
            && w'.r.opts == w.r.opts && w'.r.out == w.r.out
            && w'.r.past == w.r.past + [w.r.epoch] && w'.r.epoch.keys == []
  {
    assert Step(w, e) == Select(w, e.pick, w.r.phase.view);
    hide SeekOf, Step;
  }

  /** The reader neither published nor changed epochs, and reads from the snapshot it had or
      from the database as it is. */
  ghost predicate SameOutput(w: World, w': World) {
    && w'.prefix == w.prefix && w'.db == w.db && w'.r.opts == w.r.opts
    && w'.r.past == w.r.past && w'.r.epoch.keys == w.r.epoch.keys && w'.r.out == w.r.out
    && (w'.r.phase.Iterating? ==>
          w'.r.phase.view == w.db || (w.r.phase.Iterating? && w'.r.phase.view == w.r.phase.view))
  }

  lemma SameOutputKeepsOut(w: World, w': World)
    requires OutOK(w) && SameOutput(w, w')
    ensures OutOK(w')
  {
    hide Rendered, Joined;
  }

  lemma SelectIsSilent(w: World, pick: Pick)
    requires w.r.phase.Iterating? && w.r.count < w.r.max && !TakesReset(w, Move(pick))
    ensures SameOutput(w, Select(w, pick, w.r.phase.view))
  {
  }

  lemma OtherMovesAreSilent(w: World, pick: Pick)
    requires LocalsOK(w.r) && (w.r.phase.Iterating? ==> w.r.count >= w.r.max)
    ensures SameOutput(w, Moved(w, pick))
  {
    assert w.r.phase.Fresh? ==> w.r.epoch.keys == [];
    hide LocalsOK, SeekOf, Landing, Select, Advance;
    match w.r.phase
    case Fresh =>
    case Starting =>
    case Iterating(_, _) =>
    case Parked(_) =>
    case Returned =>
  }

  lemma MoveKeepsOut(w: World, pick: Pick)
    requires OutOK(w) && Inv(w) && !TakesReset(w, Move(pick))
    ensures OutOK(Moved(w, pick))
  {
    assert IteratorOK(w) && LocalsOK(w.r);
    hide Inv, OutOK, Advance, Select, SameOutput;
    if w.r.phase.Iterating? && w.r.count < w.r.max {
      if w.cancelled || w.offered || w.resets != [] {
        SelectIsSilent(w, pick);
        SameOutputKeepsOut(w, Select(w, pick, w.r.phase.view));
      } else {
        AdvanceKeepsOut(w);
      }
    } else {
      hide Moved;
      OtherMovesAreSilent(w, pick);
      SameOutputKeepsOut(w, Moved(w, pick));
    }
  }

  lemma StepKeepsOut(w: World, e: Event)
    requires OutOK(w) && Inv(w) && (e.Write? ==> Lawful(e.op))
    ensures OutOK(Step(w, e))
  {
    hide Inv, Moved, SameEntries, Rendered, Joined;
    if e.Write? {
      hide *;
      WriteKeepsOut(w, e.op);
    } else if TakesReset(w, e) {
      hide *;
      ResetKeepsOut(w, e);
    } else if e.Move? {
      MoveKeepsOut(w, e.pick);
    }
  }

  /** In every run, with or without resets, the stream consists of exactly one message for each
      key published, in that order: the stored entry, or under keys-only its ID alone. */
  lemma {:induction false} StreamShowsEntries(w: World, opts: StreamOpts, es: seq<Event>)
    requires Initial(w, opts) && LawfulRun(es)
    ensures OutOK(Run(w, es))
  {
    if es == [] {
    } else {
      var n := |es| - 1;
      ReachedInv(w, opts, es[..n]);
      hide Step, OutOK, Inv;
      StreamShowsEntries(w, opts, es[..n]);
      StepKeepsOut(Run(w, es[..n]), es[n]);
    }
  }

  // ---------- Keys-only is a projection ----------

  /** Two subscriptions with the same options but for keys-only, in the same surroundings, at the
      same point; only what they have sent may differ. */
  ghost predicate Twins(a: World, b: World) {
    && b == a.(r := a.r.(opts := b.r.opts, out := b.r.out))
    && a.r.opts.seek == b.r.opts.seek && a.r.opts.max == b.r.opts.max
    && a.r.opts.SkipFirst() == b.r.opts.SkipFirst() && a.r.opts.FromHead() == b.r.opts.FromHead()
  }

  lemma RepositionKeepsTwins(a: World, b: World, seek: Bytes, max: U64)
    requires Twins(a, b) && a.r.phase.Iterating? && a.resets != []
    ensures Twins(a.(resets := a.resets[1..], r := Leave(Repositioned(a.r, seek, max), a.r.phase.view)),
                  b.(resets := b.resets[1..], r := Leave(Repositioned(b.r, seek, max), b.r.phase.view)))
  {
  }

  lemma NotifyKeepsTwins(a: World, b: World)
    requires Twins(a, b)
    ensures Twins(a.(offered := false, r := a.r.(dirty := true)), b.(offered := false, r := b.r.(dirty := true)))
  {
  }

  lemma CutKeepsTwins(a: World, b: World)
    requires Twins(a, b) && a.r.phase.Iterating? && a.resets != []
    ensures Twins(a.(resets := a.resets[1..], r := Leave(a.r.(cut := true), a.r.phase.view)),
                  b.(resets := b.resets[1..], r := Leave(b.r.(cut := true), b.r.phase.view)))
  {
  }

  lemma SelectKeepsTwins(a: World, b: World, pick: Pick)
    requires Twins(a, b) && a.r.phase.Iterating?
    ensures Twins(Select(a, pick, a.r.phase.view), Select(b, pick, b.r.phase.view))
  {
    assert b.cancelled == a.cancelled && b.offered == a.offered && b.resets == a.resets;
    assert b.r.phase == a.r.phase && b.db == a.db && b.prefix == a.prefix;
    hide SeekOf, Leave, Repositioned, Twins;
    match pick
    case PickCancel => LeaveKeepsTwins(a, b);
    case PickNotify => NotifyKeepsTwins(a, b);
    case PickReset =>
      if a.resets != [] {
        if a.resets[0].None? {
          CutKeepsTwins(a, b);
        } else {
          var opts := a.resets[0].value;
          RepositionKeepsTwins(a, b, SeekOf(opts, a.db.Keys, a.prefix), opts.max);
        }
      }
  }

  lemma AdvanceKeepsTwins(a: World, b: World)
    requires Twins(a, b) && a.r.phase.Iterating?
    ensures Twins(a.(r := Advance(a.r, a.prefix)), b.(r := Advance(b.r, b.prefix)))
  {
    hide Rendered;
  }

  lemma BeginKeepsTwins(a: World, b: World)
    requires Twins(a, b) && a.r.phase.Fresh?
    ensures Twins(a.(r := Begin(a.r, a.db.Keys, a.prefix)), b.(r := Begin(b.r, b.db.Keys, b.prefix)))
  {
    hide HeadSeek;
  }

  lemma OpenKeepsTwins(a: World, b: World)
    requires Twins(a, b)
    ensures Twins(a.(r := OpenSnapshot(a.r, a.db, a.prefix)), b.(r := OpenSnapshot(b.r, b.db, b.prefix)))
  {
    hide Landing;
  }

  lemma LeaveKeepsTwins(a: World, b: World)
    requires Twins(a, b) && a.r.phase.Iterating?
    ensures Twins(a.(r := Leave(a.r, a.r.phase.view)), b.(r := Leave(b.r, b.r.phase.view)))
  {
  }

  lemma WakeKeepsTwins(a: World, b: World)
    requires Twins(a, b)
    ensures Twins(a.(r := a.r.(phase := Returned)), b.(r := b.r.(phase := Returned)))
    ensures Twins(a.(offered := false, r := a.r.(phase := Starting)), b.(offered := false, r := b.r.(phase := Starting)))
  {
  }

  lemma MoveKeepsTwins(a: World, b: World, pick: Pick)
    requires Twins(a, b)
    ensures Twins(Moved(a, pick), Moved(b, pick))
  {
    assert b.r.phase == a.r.phase && b.r.count == a.r.count && b.r.max == a.r.max;
    assert b.cancelled == a.cancelled && b.offered == a.offered && b.resets == a.resets;
    hide Select, Advance, Twins, Begin, OpenSnapshot, Leave;
    match a.r.phase
    case Fresh => BeginKeepsTwins(a, b);
    case Starting => OpenKeepsTwins(a, b);
    case Iterating(_, _) =>
      SelectKeepsTwins(a, b, pick);
      AdvanceKeepsTwins(a, b);
      LeaveKeepsTwins(a, b);
    case Parked(_) => WakeKeepsTwins(a, b);
    case Returned =>
  }

  lemma StepKeepsTwins(a: World, b: World, e: Event)
    requires Twins(a, b)
    ensures Twins(Step(a, e), Step(b, e))
  {
    hide Moved, Apply, Written, Matching;
    if e.Move? {
      hide Twins;
      MoveKeepsTwins(a, b, e.pick);
    }
  }

  lemma {:induction false} RunKeepsTwins(a: World, b: World, es: seq<Event>)
    requires Twins(a, b)
    ensures Twins(Run(a, es), Run(b, es))
  {
    if es == [] {
    } else {
      var n := |es| - 1;
      hide Step, Twins;
      RunKeepsTwins(a, b, es[..n]);
      StepKeepsTwins(Run(a, es[..n]), Run(b, es[..n]), es[n]);
    }
  }

  lemma {:induction false} RunKeepsConsistent(w: World, es: seq<Event>)
    requires Consistent(w.db) && LawfulRun(es)
    ensures Consistent(Run(w, es).db)
  {
    if es == [] {
    } else {
      var n := |es| - 1;
      hide Consistent, Moved;
      RunKeepsConsistent(w, es[..n]);
      var w' := Run(w, es[..n]);
      if es[n].Write? {
        StepKeepsConsistent(w'.db, es[n].op);
      } else {
        MovesKeepDatabase(w', es[n]);
      }
    }
  }

  lemma MovesKeepDatabase(w: World, e: Event)
    requires !e.Write?
    ensures Step(w, e).db == w.db
  {
    hide Advance, SeekOf, Landing;
  }

  /** Under the same events, a keys-only subscription and a full one publish the same number of
      messages, and message by message the keys-only ID is the entry's own ID exactly when that
      ID has the expected 30 bytes; otherwise it is that ID padded or cut. */
  lemma {:induction false} KeysOnlyIsProjection(a: World, b: World, es: seq<Event>)
    requires Initial(a, a.r.opts) && Initial(b, b.r.opts) && Twins(a, b) && Consistent(a.db) && LawfulRun(es)
    requires a.r.opts.KeysOnly() && !b.r.opts.KeysOnly()
    ensures |Run(a, es).r.out| == |Run(b, es).r.out|
    ensures forall i :: 0 <= i < |Run(a, es).r.out| ==> IsIDOf(Run(a, es).r.out[i], Run(b, es).r.out[i])
  {
    var a', b' := Run(a, es), Run(b, es);
    RunKeepsTwins(a, b, es);
    StreamShowsEntries(a, a.r.opts, es);
    StreamShowsEntries(b, b.r.opts, es);
    RunKeepsConsistent(a, es);
    PrefixAndOptionsStay(a, es);
    PrefixAndOptionsStay(b, es);
    hide Run, Consistent, Initial, LawfulRun, Rendered;
    TwinsShowTheSame(a', b');
  }

  lemma TwinsShowTheSame(a: World, b: World)
    requires Twins(a, b) && OutOK(a) && OutOK(b) && Consistent(a.db)
    requires a.r.opts.KeysOnly() && !b.r.opts.KeysOnly()
    ensures |a.r.out| == |b.r.out|
    ensures forall i :: 0 <= i < |a.r.out| ==> IsIDOf(a.r.out[i], b.r.out[i])
  {
    var c: ChannelID := a.prefix[..32];
    assert a.prefix == EntryPrefix(c);
    assert AllKeys(a.r) == AllKeys(b.r) && a.db == b.db;
    hide Consistent, Rendered, SameEntries, Twins, IsIDOf;
    forall i | 0 <= i < |a.r.out| ensures IsIDOf(a.r.out[i], b.r.out[i]) {
      RenderingsMatch(a.db, c, AllKeys(a.r)[i]);
    }
  }

  /** `short` carries nothing but the padded ID of `full`. */
  predicate IsIDOf(short: Msg, full: Msg) {
    && EntryID(full).Some?
    && short == IDOnly(Pad(EntryID(full).value))
    && (EntryID(short) == EntryID(full) <==> |EntryID(full).value| == ID_SIZE)
  }

  lemma RenderingsMatch(db: Snapshot, c: ChannelID, k: Bytes)
    requires Consistent(db) && k in db && EntryPrefix(c) <= k
    ensures IsIDOf(Rendered(true, db, k), Rendered(false, db, k))
  {
    assert EntriesCarryIDs(db, c);
    IndexRoundTrip(c, EntryID(db[k].msg).value, 0);
  }
}

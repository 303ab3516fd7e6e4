/** What every step of the live reader keeps. */
module ReaderInvariant {
  import opened ByteStrings
  import opened Database
  import opened Messages
  import opened Reader
  import opened StreamOptions
  import opened Transactions

  /** `k` was still to be published when the `i`-th key of the epoch was chosen. */
  ghost predicate Wanted(e: Epoch, prefix: Bytes, i: nat, k: Bytes)
    requires i <= |e.keys|
  {
    prefix <= k && if i == 0 then AtMost(SeekTarget(e.seek, prefix), k) && k != e.skip else Less(e.keys[i - 1], k)
  }

  /** Published keys increase strictly from the epoch's seek position, belong to the channel, and
      each is the very next wanted one in the snapshot it came from; the limit is respected. */
  ghost predicate EpochOK(e: Epoch, prefix: Bytes) {
    && Sorted(e.keys) && |e.views| == |e.keys|
    && (forall i :: 0 <= i < |e.keys| ==> KeyOK(e, prefix, i))
    && NoGaps(e, prefix)
    && (e.keys != [] ==> e.before + |e.keys| <= e.max)
  }

  /** The `i`-th key was in its snapshot and wanted, and the epoch starts no later. */
  ghost predicate KeyOK(e: Epoch, prefix: Bytes, i: nat)
    requires i < |e.keys| == |e.views|
  {
    e.keys[i] in e.views[i] && Wanted(e, prefix, i, e.keys[i]) && AtMost(SeekTarget(e.seek, prefix), e.keys[i])
  }

  /** No snapshot had a wanted key before the one that was taken from it. */
  ghost predicate NoGaps(e: Epoch, prefix: Bytes)
    requires |e.keys| == |e.views|
  {
    forall i, k :: 0 <= i < |e.keys| && k in e.views[i] && Wanted(e, prefix, i, k) ==> AtMost(e.keys[i], k)
  }

  /** Every snapshot that the epoch read from is contained in the database. */
  ghost predicate ViewsWithin(e: Epoch, db: Snapshot) {
    forall i :: 0 <= i < |e.views| ==> e.views[i].Keys <= db.Keys
  }

  ghost predicate EpochsOK(w: World) {
    && EpochOK(w.r.epoch, w.prefix) && ViewsWithin(w.r.epoch, w.db)
    && (forall j :: 0 <= j < |w.r.past| ==> EpochOK(w.r.past[j], w.prefix) && ViewsWithin(w.r.past[j], w.db))
  }

  /** The locals of `read` are what the current epoch says. */
  ghost predicate LocalsOK(r: ReaderState) {
    var e := r.epoch;
    && r.count == e.before + |e.keys|
    && (r.phase.Fresh? ==> r.past == [] && e == Epoch([], [], 0, 0, [], []) && r.key == r.lastSeen == [])
    && (!r.phase.Fresh? ==> r.max == e.max)
    && (e.keys == [] ==> r.key == e.seek && r.lastSeen == e.skip)
    && (e.keys != [] ==> r.key == r.lastSeen == e.keys[|e.keys| - 1])
    && (r.phase.Parked? ==> !r.dirty && r.count < r.max)
  }

  /** Counts carry over from epoch to epoch. */
  ghost predicate CountsOK(r: ReaderState) {
    var all := r.past + [r.epoch];
    && all[0].before == 0
    && forall j :: 0 < j < |all| ==> all[j].before == all[j - 1].before + |all[j - 1].keys|
  }

  /** `k` is at or after the cursor and not the key seen last. */
  ghost predicate Ahead(r: ReaderState, prefix: Bytes, k: Bytes) {
    prefix <= k && AtMost(SeekTarget(r.key, prefix), k) && k != r.lastSeen
  }

  /** The iterator has not passed anything that lies ahead of the cursor. */
  ghost predicate IteratorOK(w: World) {
    w.r.phase.Iterating? ==>
      var Iterating(view, at) := w.r.phase;
      && (at.Some? ==> at.value in view && AtMost(SeekTarget(w.r.key, w.prefix), at.value))
      && forall k :: k in view && Ahead(w.r, w.prefix, k) ==> at.Some? && AtMost(at.value, k)
  }

  /** An entry that the last snapshot lacks is announced: some notification or the dirty flag
      stands for it, unless it was committed before the watcher was registered. */
  ghost predicate Announced(w: World, view: Snapshot, dirty: bool) {
    && view.Keys <= w.db.Keys
    && forall k :: k in w.db && w.prefix <= k && k !in view ==>
         k in w.unwatched || dirty || w.offered || w.queued > 0
  }

  ghost predicate WakeOK(w: World) {
    match w.r.phase
    case Iterating(view, _) => Announced(w, view, w.r.dirty)
    case Parked(view) =>
      && Announced(w, view, false)
      && (w.cancelled || w.r.cut || Blocked(view.Keys, w.r.key, w.prefix)
          || forall k :: k in view ==> !Ahead(w.r, w.prefix, k))
    case _ => true
  }

  ghost predicate Inv(w: World) {
    EpochsOK(w) && LocalsOK(w.r) && CountsOK(w.r) && IteratorOK(w) && WakeOK(w)
  }

  lemma InitialInv(w: World, opts: StreamOpts)
    requires Initial(w, opts)
    ensures Inv(w)
  {
  }

  /** A lawful write only adds keys, and in the channel's keyspace it adds only announced ones. */
  lemma WriteGrows(w: World, op: Op)
    requires Lawful(op)
    ensures w.db.Keys <= Apply(w.db, op).Keys
    ensures Apply(w.db, op).Keys == w.db.Keys + Written(w.db, op)
  {
  }

  lemma WriteKeepsInv(w: World, op: Op)
    requires Inv(w) && Lawful(op)
    ensures Inv(Step(w, Write(op)))
  {
    var w' := Step(w, Write(op));
    WriteGrows(w, op);
    var touched := Matching(Written(w.db, op), w.prefix);
    assert forall k :: k in w'.db && w.prefix <= k && k !in w.db ==> k in touched;
    assert EpochsOK(w');
    if w.r.phase.Iterating? {
      assert Announced(w', w.r.phase.view, w.r.dirty);
    } else if w.r.phase.Parked? {
      assert Announced(w', w.r.phase.view, false);
    }
  }

  lemma LeaveKeepsInv(w: World, view: Snapshot)
    requires EpochsOK(w) && LocalsOK(w.r) && CountsOK(w.r) && !w.r.phase.Fresh?
    requires Announced(w, view, w.r.dirty)
    requires w.r.count >= w.r.max || w.r.dirty || w.cancelled || w.r.cut || Blocked(view.Keys, w.r.key, w.prefix)
             || forall k :: k in view ==> !Ahead(w.r, w.prefix, k)
    ensures Inv(w.(r := Leave(w.r, view)))
  {
    var w' := w.(r := Leave(w.r, view));
    if w'.r.phase.Parked? && !w.cancelled && !w.r.cut && !Blocked(view.Keys, w.r.key, w.prefix) {
      assert forall k :: k in view ==> Ahead(w'.r, w.prefix, k) == Ahead(w.r, w.prefix, k);
    }
  }

  lemma LeaveDirtyKeepsInv(w: World, view: Snapshot)
    requires EpochsOK(w) && LocalsOK(w.r) && CountsOK(w.r) && !w.r.phase.Fresh? && w.r.dirty
    ensures Inv(w.(r := Leave(w.r, view)))
  {
  }

  lemma OpenKeepsInv(w: World)
    requires Inv(w) && w.r.phase.Starting?
    ensures Inv(w.(r := OpenSnapshot(w.r, w.db, w.prefix)))
  {
    StrictTotalOrder();
    var w' := w.(r := OpenSnapshot(w.r, w.db, w.prefix));
    var ahead := KeysFrom(w.db.Keys, SeekTarget(w.r.key, w.prefix));
    assert forall k :: k in w.db && Ahead(w'.r, w.prefix, k) ==> k in ahead;
  }

  lemma RepositionKeepsCounts(r: ReaderState, seek: Bytes, max: U64)
    requires CountsOK(r) && r.count == r.epoch.before + |r.epoch.keys|
    ensures CountsOK(Repositioned(r, seek, max))
  {
    var r' := Repositioned(r, seek, max);
    var all, all' := r.past + [r.epoch], r'.past + [r'.epoch];
    assert all' == all + [r'.epoch];
    assert all'[|all| - 1] == r.epoch;
  }

  lemma RepositionKeepsEpochs(w: World, seek: Bytes, max: U64)
    requires EpochsOK(w)
    ensures EpochsOK(w.(r := Repositioned(w.r, seek, max)))
  {
    var r' := Repositioned(w.r, seek, max);
    forall j | 0 <= j < |r'.past| ensures EpochOK(r'.past[j], w.prefix) && ViewsWithin(r'.past[j], w.db) {
      if j < |w.r.past| {
        assert r'.past[j] == w.r.past[j];
      } else {
        assert r'.past[j] == w.r.epoch;
      }
    }
  }

  lemma ResetKeepsInv(w: World, reset: Option<StreamOpts>)
    requires Inv(w) && w.r.phase.Iterating?
    ensures Inv(w.(r := TakeReset(w.r, reset, w.db.Keys, w.prefix, w.r.phase.view)))
  {
    if reset.None? {
      LeaveKeepsInv(w.(r := w.r.(cut := true)), w.r.phase.view);
    } else {
      RepositionKeepsInv(w, SeekOf(reset.value, w.db.Keys, w.prefix), reset.value.max);
    }
  }

  lemma RepositionKeepsInv(w: World, seek: Bytes, max: U64)
    requires Inv(w) && w.r.phase.Iterating?
    ensures Inv(w.(r := Leave(Repositioned(w.r, seek, max), w.r.phase.view)))
  {
    RepositionKeepsCounts(w.r, seek, max);
    RepositionKeepsEpochs(w, seek, max);
    var w' := w.(r := Repositioned(w.r, seek, max));
    assert LocalsOK(w'.r);
    LeaveDirtyKeepsInv(w', w.r.phase.view);
  }

  ghost function Extended(e: Epoch, k: Bytes, view: Snapshot): Epoch {
    e.(keys := e.keys + [k], views := e.views + [view])
  }

  /** The next key comes after everything published in this epoch. */
  lemma NextIsAbove(w: World, k: Bytes)
    requires Inv(w) && w.r.phase.Iterating? && w.r.phase.at == Some(k) && w.prefix <= k && k != w.r.lastSeen
    ensures w.r.epoch.keys != [] ==> Less(w.r.epoch.keys[|w.r.epoch.keys| - 1], k)
    ensures AtMost(SeekTarget(w.r.epoch.seek, w.prefix), k)
    ensures Wanted(w.r.epoch, w.prefix, |w.r.epoch.keys|, k)
    ensures forall x :: x in w.r.phase.view && Wanted(w.r.epoch, w.prefix, |w.r.epoch.keys|, x) ==> AtMost(k, x)
  {
    var e := w.r.epoch;
    var n := |e.keys|;
    if n > 0 {
      var last := e.keys[n - 1];
      assert KeyOK(e, w.prefix, n - 1) && last != [];
      if SeekTarget(e.seek, w.prefix) != last {
        LessTransitive(SeekTarget(e.seek, w.prefix), last, k);
      }
    }
    forall x | x in w.r.phase.view && Wanted(e, w.prefix, n, x) ensures AtMost(k, x) {
      LessIrreflexive(x);
      assert Ahead(w.r, w.prefix, x);
    }
  }

  lemma PublishKeepsEpoch(w: World, k: Bytes)
    requires Inv(w) && w.r.phase.Iterating? && w.r.count < w.r.max
    requires w.r.phase.at == Some(k) && w.prefix <= k && k != w.r.lastSeen
    ensures EpochOK(Extended(w.r.epoch, k, w.r.phase.view), w.prefix)
  {
    var e, view := w.r.epoch, w.r.phase.view;
    NextIsAbove(w, k);
    assert EpochOK(e, w.prefix) && w.r.count == e.before + |e.keys| && w.r.max == e.max && k in view;
    hide Inv, Ahead;
    ExtendedKeepsKeys(e, w.prefix, k, view);
    ExtendedKeepsNoGaps(e, w.prefix, k, view);
    SortedSnoc(e.keys, k);
    hide NoGaps, KeyOK, Wanted, Less;
  }

  lemma SameWanted(e: Epoch, prefix: Bytes, k: Bytes, view: Snapshot, i: nat, x: Bytes)
    requires i <= |e.keys|
    ensures Wanted(Extended(e, k, view), prefix, i, x) == Wanted(e, prefix, i, x)
  {
  }

  lemma ExtendedKeepsKeys(e: Epoch, prefix: Bytes, k: Bytes, view: Snapshot)
    requires |e.keys| == |e.views| && forall i :: 0 <= i < |e.keys| ==> KeyOK(e, prefix, i)
    requires k in view && Wanted(e, prefix, |e.keys|, k) && AtMost(SeekTarget(e.seek, prefix), k)
    ensures var e' := Extended(e, k, view); forall i :: 0 <= i < |e'.keys| ==> KeyOK(e', prefix, i)
  {
    var e' := Extended(e, k, view);
    hide Wanted, Less;
    forall i | 0 <= i < |e'.keys| ensures KeyOK(e', prefix, i) {
      SameWanted(e, prefix, k, view, i, e'.keys[i]);
      assert i < |e.keys| ==> KeyOK(e, prefix, i);
    }
  }

  lemma ExtendedKeepsNoGaps(e: Epoch, prefix: Bytes, k: Bytes, view: Snapshot)
    requires |e.keys| == |e.views| && NoGaps(e, prefix)
    requires forall x :: x in view && Wanted(e, prefix, |e.keys|, x) ==> AtMost(k, x)
    ensures NoGaps(Extended(e, k, view), prefix)
  {
    var e' := Extended(e, k, view);
    hide Wanted, Less;
    forall i, x | 0 <= i < |e'.keys| && x in e'.views[i] && Wanted(e', prefix, i, x) ensures AtMost(e'.keys[i], x) {
      SameWanted(e, prefix, k, view, i, x);
    }
  }

  lemma PublishKeepsCounts(r: ReaderState, k: Bytes, view: Snapshot)
    requires CountsOK(r)
    ensures CountsOK(r.(epoch := Extended(r.epoch, k, view)))
  {
    var r' := r.(epoch := Extended(r.epoch, k, view));
    var all, all' := r.past + [r.epoch], r'.past + [r'.epoch];
    assert forall j :: 0 <= j < |all| - 1 ==> all'[j] == all[j];
  }

  lemma IteratorMovesOn(w: World, k: Bytes)
    requires Inv(w) && w.r.phase.Iterating? && w.r.count < w.r.max && w.r.phase.at == Some(k) && w.prefix <= k
    ensures IteratorOK(w.(r := Advance(w.r, w.prefix)))
  {
    var view := w.r.phase.view;
    var w' := w.(r := Advance(w.r, w.prefix));
    var at' := w'.r.phase.at;
    forall x | x in view && Ahead(w'.r, w.prefix, x) ensures at'.Some? && AtMost(at'.value, x) {
      assert k != w.r.lastSeen ==> AtMost(k, x);
      if k != w.r.lastSeen && Ahead(w.r, w.prefix, k) && !Ahead(w.r, w.prefix, x) {
        NotBehind(w, k, x);
      }
      assert Less(k, x);
      assert x in KeysAbove(view.Keys, k);
    }
    if at'.Some? {
      assert Less(k, at'.value);
      if k == w.r.lastSeen && SeekTarget(w.r.key, w.prefix) != k {
        LessTransitive(SeekTarget(w.r.key, w.prefix), k, at'.value);
      }
    }
  }

  /** A key after the published one was ahead of the old cursor as well. */
  lemma NotBehind(w: World, k: Bytes, x: Bytes)
    requires Ahead(w.r, w.prefix, k) && w.prefix <= x && Less(k, x)
    ensures AtMost(SeekTarget(w.r.key, w.prefix), x)
  {
    if SeekTarget(w.r.key, w.prefix) != k {
      LessTransitive(SeekTarget(w.r.key, w.prefix), k, x);
    }
  }

  lemma PublishKeepsRest(w: World, k: Bytes)
    requires Inv(w) && w.r.phase.Iterating? && w.r.count < w.r.max && w.r.phase.at == Some(k) && w.prefix <= k
    requires k != w.r.lastSeen
    ensures var w' := w.(r := Advance(w.r, w.prefix)); LocalsOK(w'.r) && CountsOK(w'.r) && EpochsOK(w') && WakeOK(w')
  {
    PublishKeepsEpoch(w, k);
    PublishKeepsCounts(w.r, k, w.r.phase.view);
    var r' := Advance(w.r, w.prefix);
    assert r'.epoch == Extended(w.r.epoch, k, w.r.phase.view);
    assert CountsOK(r') by {
      assert r'.past + [r'.epoch] == w.r.past + [Extended(w.r.epoch, k, w.r.phase.view)];
    }
  }

  lemma ExhaustedLeaves(w: World)
    requires Inv(w) && w.r.phase.Iterating? && !OnPrefix(w.r.phase.at, w.prefix)
    ensures Inv(w.(r := Leave(w.r, w.r.phase.view)))
  {
    var Iterating(view, at) := w.r.phase;
    if !Blocked(view.Keys, w.r.key, w.prefix) {
      OffPrefixIsExhausted(view.Keys, w.r.key, w.prefix, at);
      assert forall k :: k in view ==> !Ahead(w.r, w.prefix, k);
    }
    LeaveKeepsInv(w, view);
  }

  lemma AdvanceKeepsInv(w: World)
    requires Inv(w) && w.r.phase.Iterating? && w.r.count < w.r.max
    ensures Inv(w.(r := Advance(w.r, w.prefix)))
  {
    var Iterating(view, at) := w.r.phase;
    if !OnPrefix(at, w.prefix) {
      ExhaustedLeaves(w);
    } else {
      IteratorMovesOn(w, at.value);
      if at.value != w.r.lastSeen {
        PublishKeepsRest(w, at.value);
      }
    }
  }

  lemma BeginKeepsInv(w: World)
    requires Inv(w) && w.r.phase.Fresh?
    ensures Inv(w.(r := Begin(w.r, w.db.Keys, w.prefix)))
  {
  }

  /** Leaving the snapshot early: the limit is reached or the context is cancelled. */
  lemma InterruptKeepsInv(w: World)
    requires Inv(w) && w.r.phase.Iterating? && (w.r.count >= w.r.max || w.cancelled)
    ensures Inv(w.(r := Leave(w.r, w.r.phase.view)))
  {
    LeaveKeepsInv(w, w.r.phase.view);
  }

  lemma NotifyKeepsInv(w: World)
    requires Inv(w) && w.r.phase.Iterating? && w.offered
    ensures Inv(w.(offered := false, r := w.r.(dirty := true)))
  {
    assert forall k :: Ahead(w.r.(dirty := true), w.prefix, k) == Ahead(w.r, w.prefix, k);
  }

  lemma SelectKeepsInv(w: World, pick: Pick)
    requires Inv(w) && w.r.phase.Iterating?
    ensures Inv(Select(w, pick, w.r.phase.view))
  {
    hide Inv;
    match pick
    case PickCancel => if w.cancelled { InterruptKeepsInv(w); }
    case PickNotify => if w.offered { NotifyKeepsInv(w); }
    case PickReset =>
      if w.resets != [] {
        DroppingResetKeepsInv(w);
        ResetKeepsInv(w.(resets := w.resets[1..]), w.resets[0]);
      }
  }

  lemma DroppingResetKeepsInv(w: World)
    requires Inv(w) && w.resets != []
    ensures Inv(w.(resets := w.resets[1..]))
  {
  }

  lemma WakeKeepsInv(w: World)
    requires Inv(w) && w.r.phase.Parked?
    ensures Inv(w.(r := w.r.(phase := Returned)))
    ensures Inv(w.(offered := false, r := w.r.(phase := Starting)))
  {
  }

  lemma MoveKeepsInv(w: World, pick: Pick)
    requires Inv(w)
    ensures Inv(Moved(w, pick))
  {
    hide Inv;
    match w.r.phase
    case Fresh => BeginKeepsInv(w);
    case Starting => OpenKeepsInv(w);
    case Iterating(view, at) =>
      if w.r.count >= w.r.max {
        InterruptKeepsInv(w);
      } else if w.cancelled || w.offered || w.resets != [] {
        SelectKeepsInv(w, pick);
      } else {
        AdvanceKeepsInv(w);
      }
    case Parked(_) => WakeKeepsInv(w);
    case Returned =>
  }

  lemma StepKeepsInv(w: World, e: Event)
    requires Inv(w) && (e.Write? ==> Lawful(e.op))
    ensures Inv(Step(w, e))
  {
    match e
    case Write(op) => WriteKeepsInv(w, op);
    case Move(pick) => MoveKeepsInv(w, pick);
    case _ =>
  }

  /** The reader's next move accepts a non-nil reset. */
  ghost predicate TakesReset(w: World, e: Event) {
    && e.Move? && e.pick.PickReset? && w.r.phase.Iterating? && w.r.count < w.r.max
    && w.resets != [] && w.resets[0].Some?
  }

  /** What no step changes, and what only a reset changes. */
  ghost predicate Framed(w: World, e: Event, w': World) {
    && w'.prefix == w.prefix && w'.r.opts == w.r.opts
    && (w'.cancelled <==> w.cancelled || e.Cancel?)
    && (w.watching ==> w'.watching && w'.unwatched == w.unwatched)
    && (w.resets == [] && !e.RequestReset? ==> w'.resets == [] && w'.r.past == w.r.past)
    && (TakesReset(w, e) ==>
          var opts := w.resets[0].value;
          w'.r == Leave(Repositioned(w.r, SeekOf(opts, w.db.Keys, w.prefix), opts.max), w.r.phase.view))
    && (!TakesReset(w, e) ==> w'.r.past == w.r.past)
    && (!TakesReset(w, e) && !w.r.phase.Fresh? ==>
          && !w'.r.phase.Fresh?
          && w'.r.epoch.seek == w.r.epoch.seek && w'.r.epoch.skip == w.r.epoch.skip
          && w'.r.epoch.max == w.r.epoch.max)
  }

  lemma SelectFrame(w: World, pick: Pick)
    requires w.r.phase.Iterating? && w.r.count < w.r.max
    ensures Framed(w, Move(pick), Select(w, pick, w.r.phase.view))
  {
    hide SeekOf;
  }

  lemma AdvanceFrame(w: World, pick: Pick)
    requires w.r.phase.Iterating? && !TakesReset(w, Move(pick))
    ensures Framed(w, Move(pick), w.(r := Advance(w.r, w.prefix)))
  {
  }

  lemma OtherMoveFrame(w: World, pick: Pick)
    requires w.r.phase.Iterating? ==> w.r.count >= w.r.max
    ensures Framed(w, Move(pick), Moved(w, pick))
  {
    hide SeekOf, Landing, Select, Advance;
    match w.r.phase
    case Fresh => assert Moved(w, pick) == w.(r := Begin(w.r, w.db.Keys, w.prefix));
    case Starting =>
    case Iterating(view, _) => assert Moved(w, pick) == w.(r := Leave(w.r, view));
    case Parked(_) =>
    case Returned =>
  }

  lemma {:induction false} StepFrame(w: World, e: Event)
    ensures Framed(w, e, Step(w, e))
  {
    hide SeekOf, Apply, Outcome, Written, Select, Advance;
    if e.Move? {
      hide Framed;
      if w.r.phase.Iterating? && w.r.count < w.r.max {
        if w.cancelled || w.offered || w.resets != [] {
          SelectFrame(w, e.pick);
        } else {
          AdvanceFrame(w, e.pick);
        }
      } else {
        OtherMoveFrame(w, e.pick);
      }
    }
  }

  /** The invariant holds in every state that any events can lead to. */
  lemma {:induction false} RunKeepsInv(w: World, es: seq<Event>)
    requires Inv(w) && LawfulRun(es)
    ensures Inv(Run(w, es))
  {
    if es == [] {
    } else {
      var n := |es| - 1;
      RunKeepsInv(w, es[..n]);
      hide Step, Inv;
      StepKeepsInv(Run(w, es[..n]), es[n]);
    }
  }
}

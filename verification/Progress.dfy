/** What the reader does when it is let run: it publishes what its snapshot holds, and with its watcher
    alone it comes to its limit or to the end of the channel. */
module Progress {
  import opened ByteStrings
  import opened Database
  import opened FeedStarts
  import opened Reader
  import opened ReaderInvariant
  import opened Wakeup

  // ---------- Within a snapshot ----------

  /** The reader is inside a snapshot with nothing to interrupt it and its cursor unblocked. */
  ghost predicate Undisturbed(w: World) {
    && Inv(w) && w.r.phase.Iterating? && !w.cancelled && !w.offered && w.resets == []
    && !Blocked(w.r.phase.view.Keys, w.r.key, w.prefix)
  }

  /** The entries of the snapshot from the cursor on, but for the key seen last if that comes first. */
  ghost function AtHand(w: World): set<Bytes>
    requires w.r.phase.Iterating?
  {
    var range := InRange(w.r.phase.view.Keys, w.r.key, w.prefix);
    set k | k in range && (k == w.r.lastSeen ==> exists x :: x in range && Less(x, k))
  }

  /** As many of them as the limit allows. */
  ghost function Room(w: World): nat
    requires w.r.phase.Iterating?
  {
    var room := if w.r.count < w.r.max then w.r.max - w.r.count else 0;
    if |AtHand(w)| < room then |AtHand(w)| else room
  }

  /** Only the reader itself changed. */
  ghost predicate SameAround(w: World, w': World) {
    w' == w.(r := w'.r)
  }

  lemma SameAroundBoth(w: World, w1: World, w2: World)
    requires SameAround(w, w1) && SameAround(w1, w2)
    ensures SameAround(w, w2)
  {
  }

  /** The run of moves published these keys and left the snapshot, as the count and the dirty flag
      say, and touched nothing else. */
  ghost predicate Drained(w: World, w': World, keys: seq<Bytes>)
    requires w.r.phase.Iterating?
  {
    && SameAround(w, w')
    && w'.r.epoch.keys == w.r.epoch.keys + keys && w'.r.past == w.r.past && w'.r.count == w.r.count + |keys|
    && w'.r.max == w.r.max && w'.r.dirty == w.r.dirty
    && w'.r.phase == if w'.r.count >= w.r.max then Returned else if w.r.dirty then Starting else Parked(w.r.phase.view)
  }

  lemma NothingAtHand(w: World)
    requires Undisturbed(w) && !OnPrefix(w.r.phase.at, w.prefix)
    ensures AtHand(w) == {}
  {
    var Iterating(view, at) := w.r.phase;
    OffPrefixIsExhausted(view.Keys, w.r.key, w.prefix, at);
    assert forall k :: k in InRange(view.Keys, w.r.key, w.prefix) ==> k == w.r.lastSeen;
    LessIrreflexive(w.r.lastSeen);
  }

  /** One item was handled: published, unless it was the key seen last. */
  ghost predicate OneItem(w: World, w1: World, k: Bytes)
    requires w.r.phase.Iterating? && w1.r.phase.Iterating?
  {
    && SameAround(w, w1) && w1.r.phase.view == w.r.phase.view
    && w1.r.past == w.r.past && w1.r.max == w.r.max && w1.r.dirty == w.r.dirty
    && if k == w.r.lastSeen then
         w1.r.epoch.keys == w.r.epoch.keys && w1.r.count == w.r.count && AtHand(w1) == AtHand(w)
       else
         && w1.r.epoch.keys == w.r.epoch.keys + [k] && w1.r.count == w.r.count + 1
         && k in AtHand(w) && (forall x :: x in AtHand(w) ==> AtMost(k, x)) && AtHand(w1) == AtHand(w) - {k}
  }

  /** The item at the iterator is the next of those at hand, unless it was the key seen last. */
  lemma ItemIsNext(w: World)
    requires Undisturbed(w) && w.r.count < w.r.max && OnPrefix(w.r.phase.at, w.prefix)
    ensures var k, w' := w.r.phase.at.value, Step(w, Move(PickCancel));
            && Undisturbed(w') && w'.r.phase.Iterating? && OneItem(w, w', k) && k in w.r.phase.view
            && (w'.r.phase.at.Some? ==> Less(k, w'.r.phase.at.value) && w'.r.phase.at.value in w.r.phase.view)
  {
    var Iterating(view, at) := w.r.phase;
    var k, w' := at.value, Step(w, Move(PickCancel));
    AdvancesOne(w);
    StepKeepsInv(w, Move(PickCancel));
    PrefixAtMost(w.prefix, k);
    LessAntisymmetric(k, w.prefix);
    SeekInsideIsUnblocked(view.Keys, k, w.prefix);
    assert IteratorOK(w);
    assert forall x :: x in InRange(view.Keys, w.r.key, w.prefix) && x != w.r.lastSeen ==> AtMost(k, x);
    hide Inv, Step, Landing, IteratorOK, Blocked;
    if k != w.r.lastSeen {
      hide AtHand;
      PublishedLeavesRest(w, w', k);
    }
  }

  lemma AdvancesOne(w: World)
    requires w.r.phase.Iterating? && !w.cancelled && !w.offered && w.resets == [] && w.r.count < w.r.max
    requires OnPrefix(w.r.phase.at, w.prefix)
    ensures var k, w' := w.r.phase.at.value, Step(w, Move(PickCancel));
            && SameAround(w, w') && w'.r.phase == Iterating(w.r.phase.view, LeastOf(KeysAbove(w.r.phase.view.Keys, k)))
            && w'.r.past == w.r.past && w'.r.max == w.r.max && w'.r.dirty == w.r.dirty
            && if k == w.r.lastSeen then w'.r == w.r.(phase := w'.r.phase)
               else w'.r.epoch.keys == w.r.epoch.keys + [k] && w'.r.count == w.r.count + 1 && w'.r.key == w'.r.lastSeen == k
  {
  }

  lemma PublishedLeavesRest(w: World, w': World, k: Bytes)
    requires w.r.phase.Iterating? && w'.r.phase.Iterating? && w'.r.phase.view == w.r.phase.view && w'.prefix == w.prefix
    requires w'.r.key == w'.r.lastSeen == k != w.r.lastSeen && k in InRange(w.r.phase.view.Keys, w.r.key, w.prefix)
    requires forall x :: x in InRange(w.r.phase.view.Keys, w.r.key, w.prefix) && x != w.r.lastSeen ==> AtMost(k, x)
    ensures k in AtHand(w) && (forall x :: x in AtHand(w) ==> AtMost(k, x)) && AtHand(w') == AtHand(w) - {k}
  {
    var keys, range := w.r.phase.view.Keys, InRange(w.r.phase.view.Keys, w.r.key, w.prefix);
    PrefixAtMost(w.prefix, k);
    forall x | x in AtHand(w) ensures AtMost(k, x) {
      if x == w.r.lastSeen {
        var y :| y in range && Less(y, x);
        LessIrreflexive(x);
        LessTransitiveAtMost(k, y, x);
      }
    }
    forall x | x in keys && w.prefix <= x ensures x in AtHand(w') <==> x in AtHand(w) && x != k {
      var range' := InRange(keys, k, w.prefix);
      if x in range' {
        LessTransitiveAtMost(SeekTarget(w.r.key, w.prefix), k, x);
        assert k in range && (x != k ==> Less(k, x));
      }
      if x == k {
        forall y | y in range' ensures !Less(y, k) {
          LessAntisymmetric(y, k);
        }
      }
    }
  }

  lemma LessTransitiveAtMost(a: Bytes, b: Bytes, c: Bytes)
    requires AtMost(a, b) && AtMost(b, c)
    ensures AtMost(a, c)
  {
    if a != b && b != c {
      LessTransitive(a, b, c);
    }
  }

  predicate OnlyMoves(es: seq<Event>) {
    forall i :: 0 <= i < |es| ==> es[i] == Move(PickCancel)
  }

  lemma RunCons(w: World, e: Event, es: seq<Event>)
    ensures Run(w, [e] + es) == Run(Step(w, e), es)
  {
    var none: seq<Event> := [];
    assert none + [e] == [e];
    RunSnoc(w, none, e);
    RunSplits(w, [e], es);
  }

  lemma LeavesAtEnd(w: World)
    requires w.r.phase.Iterating? && !w.cancelled && !w.offered && w.resets == []
    requires w.r.count >= w.r.max || !OnPrefix(w.r.phase.at, w.prefix)
    ensures Drained(w, Step(w, Move(PickCancel)), [])
  {
  }

  /** One item handled, then the rest: as much as all at once. */
  lemma ItemThenRest(w: World, w1: World, w2: World, k: Bytes)
    requires w.r.phase.Iterating? && w1.r.phase.Iterating? && OneItem(w, w1, k) && w.r.count < w.r.max
    requires Room(w1) <= |Ascending(AtHand(w1))| && Drained(w1, w2, Ascending(AtHand(w1))[..Room(w1)])
    ensures Room(w) <= |Ascending(AtHand(w))| && Drained(w, w2, Ascending(AtHand(w))[..Room(w)])
  {
    hide AtHand, Less, SameAround;
    SameAroundBoth(w, w1, w2);
    AscendingEnumerates(AtHand(w));
    if k != w.r.lastSeen {
      AscendingUncons(AtHand(w), k);
      RoomForOneMore(w, w1, k);
      OneMore(w.r.epoch.keys, k, Ascending(AtHand(w)), Ascending(AtHand(w1)), Room(w1));
    }
  }

  lemma RoomForOneMore(w: World, w1: World, k: Bytes)
    requires w.r.phase.Iterating? && w1.r.phase.Iterating? && OneItem(w, w1, k) && w.r.count < w.r.max && k != w.r.lastSeen
    ensures Room(w) == Room(w1) + 1
  {
    hide AtHand, Less, SameAround;
  }

  lemma OneMore(keys: seq<Bytes>, k: Bytes, all: seq<Bytes>, rest: seq<Bytes>, n: nat)
    requires all == [k] + rest && n <= |rest|
    ensures all[..n + 1] == [k] + rest[..n] && (keys + [k]) + rest[..n] == keys + all[..n + 1]
  {
  }

  /** Undisturbed, the reader publishes what is at hand, in order and as far as the limit goes, and
      then leaves its snapshot. */
  lemma {:induction false} Drains(w: World) returns (es: seq<Event>)
    requires Undisturbed(w) && w.r.phase.Iterating?
    ensures OnlyMoves(es) && Room(w) <= |Ascending(AtHand(w))|
    ensures Drained(w, Run(w, es), Ascending(AtHand(w))[..Room(w)])
    decreases if OnPrefix(w.r.phase.at, w.prefix) then |KeysFrom(w.r.phase.view.Keys, w.r.phase.at.value)| else 0
  {
    hide Undisturbed, Run, Step, AtHand, Room, Drained, OneItem, KeysFrom, Less;
    var go := Move(PickCancel);
    if w.r.count >= w.r.max || !OnPrefix(w.r.phase.at, w.prefix) {
      DrainsAtEnd(w);
      es := [go];
    } else {
      var w1 := Step(w, go);
      ItemIsNext(w);
      OneItemFewer(w, w1);
      var rest := Drains(w1);
      es := [go] + rest;
      RunCons(w, go, rest);
      ItemThenRest(w, w1, Run(w1, rest), w.r.phase.at.value);
    }
  }

  lemma DrainsAtEnd(w: World)
    requires Undisturbed(w) && (w.r.count >= w.r.max || !OnPrefix(w.r.phase.at, w.prefix))
    ensures Room(w) <= |Ascending(AtHand(w))|
    ensures Drained(w, Run(w, [Move(PickCancel)]), Ascending(AtHand(w))[..Room(w)])
  {
    var none: seq<Event> := [];
    RunSnoc(w, none, Move(PickCancel));
    assert none + [Move(PickCancel)] == [Move(PickCancel)];
    if w.r.count < w.r.max {
      NothingAtHand(w);
    }
    AscendingEnumerates(AtHand(w));
    assert Room(w) == 0 && Ascending(AtHand(w))[..0] == [];
    LeavesAtEnd(w);
    hide *;
  }

  lemma OneItemFewer(w: World, w1: World)
    requires w.r.phase.Iterating? && w1.r.phase.Iterating? && OnPrefix(w.r.phase.at, w.prefix)
    requires OneItem(w, w1, w.r.phase.at.value) && w.r.phase.at.value in w.r.phase.view
    requires w1.r.phase.at.Some? ==> Less(w.r.phase.at.value, w1.r.phase.at.value)
    ensures w1.prefix == w.prefix && w1.r.phase.view == w.r.phase.view
    ensures (if OnPrefix(w1.r.phase.at, w1.prefix) then |KeysFrom(w1.r.phase.view.Keys, w1.r.phase.at.value)| else 0)
            < |KeysFrom(w.r.phase.view.Keys, w.r.phase.at.value)|
  {
    hide AtHand;
    FewerFrom(w, w1);
  }

  lemma FewerFrom(w: World, w1: World)
    requires w.r.phase.Iterating? && w1.r.phase.Iterating? && w1.r.phase.view == w.r.phase.view
    requires w1.prefix == w.prefix && OnPrefix(w.r.phase.at, w.prefix)
    requires w.r.phase.at.value in w.r.phase.view
    requires w1.r.phase.at.Some? ==> Less(w.r.phase.at.value, w1.r.phase.at.value)
    ensures (if OnPrefix(w1.r.phase.at, w.prefix) then |KeysFrom(w.r.phase.view.Keys, w1.r.phase.at.value)| else 0)
            < |KeysFrom(w.r.phase.view.Keys, w.r.phase.at.value)|
  {
    var keys, k := w.r.phase.view.Keys, w.r.phase.at.value;
    assert k in KeysFrom(keys, k);
    if OnPrefix(w1.r.phase.at, w.prefix) {
      var k1 := w1.r.phase.at.value;
      forall x | x in KeysFrom(keys, k1) ensures x in KeysFrom(keys, k) - {k} {
        LessTransitiveAtMost(k, k1, x);
        LessAntisymmetric(k, k1);
      }
      SubsetIsSmaller(KeysFrom(keys, k1), KeysFrom(keys, k) - {k});
    }
  }

  lemma {:induction false} SubsetIsSmaller(a: set<Bytes>, b: set<Bytes>)
    requires a <= b
    ensures |a| <= |b|
  {
    if a == {} {
    } else {
      var x :| x in a;
      SubsetIsSmaller(a - {x}, b - {x});
    }
  }

  // ---------- Between snapshots ----------

  /** The reader returned, or waits with nothing on its way to it and nothing ahead of it but what was
      committed before the watcher was registered. */
  ghost predicate CaughtUp(w: World) {
    w.r.phase.Returned? || (Quiet(w) && AheadOnly(w, w.unwatched))
  }

  ghost function Phases(w: World): nat {
    match w.r.phase
    case Fresh => 6
    case Starting => 4
    case Iterating(_, _) => if w.r.dirty then 5 else 3
    case Parked(_) => 0
    case Returned => 0
  }

  ghost function Notices(w: World): nat {
    (if w.queued > 0 then 2 else 0) + if w.offered then 1 else 0
  }

  /** Nobody writes, cancels or asks for a reset: the watcher tells of its queue and the reader moves. */
  predicate ByThemselves(es: seq<Event>) {
    forall i :: 0 <= i < |es| ==> es[i].Broadcast? || es[i].Move?
  }

  /** Whatever has happened before: as long as the context is live and no reset waits, the reader and
      its watcher come to where the reader has returned or has nothing ahead of it. */
  lemma {:induction false} CatchesUp(w: World) returns (es: seq<Event>)
    requires Inv(w) && Sound(w) && !w.cancelled && w.resets == []
    ensures ByThemselves(es) && CaughtUp(Run(w, es))
    ensures Run(w, es).db == w.db && Inv(Run(w, es)) && Sound(Run(w, es))
    decreases Notices(w), Phases(w)
  {
    if w.r.phase.Returned? || (w.r.phase.Parked? && !w.offered && w.queued == 0) {
      es := [];
      if w.r.phase.Parked? {
        QuietIsCaughtUp(w);
      }
    } else {
      var first := NextPart(w);
      var w1 := Run(w, first);
      var rest := CatchesUp(w1);
      es := first + rest;
      RunSplits(w, first, rest);
    }
  }

  lemma QuietIsCaughtUp(w: World)
    requires Inv(w) && Sound(w) && Quiet(w)
    ensures AheadOnly(w, w.unwatched)
  {
    SoundIsUnblocked(w, w.db.Keys);
    forall k | k in w.db && Ahead(w.r, w.prefix, k) ensures k in w.unwatched {
      QuietMeansAnnounced(w, k);
    }
  }

  /** One part of the way: nearer to quiet, and as sound as before. */
  lemma NextPart(w: World) returns (es: seq<Event>)
    requires Inv(w) && Sound(w) && !w.cancelled && w.resets == []
    requires !w.r.phase.Returned? && !(w.r.phase.Parked? && !w.offered && w.queued == 0)
    ensures ByThemselves(es)
    ensures var w1 := Run(w, es);
            && Inv(w1) && Sound(w1) && !w1.cancelled && w1.resets == [] && w1.db == w.db
            && (Notices(w1) < Notices(w) || (Notices(w1) == Notices(w) && Phases(w1) < Phases(w)))
  {
    hide Undisturbed, Run, Step, Drained, Inv, Sound, Notices, Phases;
    if w.r.phase.Iterating? && !w.offered && w.r.count < w.r.max {
      IsUndisturbed(w);
      es := Drains(w);
      DrainedIsNearer(w, es);
    } else {
      var e := if w.r.phase.Parked? && !w.offered then Broadcast(w.queued)
               else if w.offered then Move(PickNotify) else Move(PickCancel);
      var none: seq<Event> := [];
      assert none + [e] == [e];
      es := [e];
      RunSnoc(w, none, e);
      RunOfNone(w);
      StepKeepsInv(w, e);
      StepKeepsSound(w, e);
      OneStep(w, e);
    }
  }

  lemma RunOfNone(w: World)
    ensures Run(w, []) == w
  {
  }

  lemma IsUndisturbed(w: World)
    requires Inv(w) && Sound(w) && !w.cancelled && w.resets == []
    requires w.r.phase.Iterating? && !w.offered && w.r.count < w.r.max
    ensures Undisturbed(w)
  {
    hide Sound;
    SoundIsUnblocked(w, w.r.phase.view.Keys);
  }

  lemma DrainedIsNearer(w: World, es: seq<Event>)
    requires Inv(w) && Sound(w) && !w.cancelled && w.resets == [] && w.r.phase.Iterating? && !w.offered
    requires OnlyMoves(es) && exists keys :: Drained(w, Run(w, es), keys)
    ensures ByThemselves(es)
    ensures var w1 := Run(w, es);
            && Inv(w1) && Sound(w1) && !w1.cancelled && w1.resets == [] && w1.db == w.db
            && Notices(w1) == Notices(w) && Phases(w1) < Phases(w)
  {
    assert LawfulRun(es) && HarmlessResets(w.resets, es, w.prefix);
    hide Inv, Sound, Run;
    RunKeepsInv(w, es);
    RunKeepsSound(w, es);
  }

  lemma OneStep(w: World, e: Event)
    requires Inv(w) && !w.cancelled && w.resets == [] && !w.r.phase.Returned?
    requires w.r.phase.Iterating? ==> w.offered || w.r.count >= w.r.max
    requires if w.r.phase.Parked? && !w.offered then w.queued > 0 && e == Broadcast(w.queued)
             else if w.offered then e == Move(PickNotify) else e == Move(PickCancel)
    ensures var w1 := Step(w, e);
            && !w1.cancelled && w1.resets == [] && w1.db == w.db
            && (Notices(w1) < Notices(w) || (Notices(w1) == Notices(w) && Phases(w1) < Phases(w)))
  {
    assert LocalsOK(w.r);
    hide SeekOf, Landing, Inv, LocalsOK;
  }

  /** A parked reader that is told of queued commits looks at the database as it then is. */
  lemma ToldReaderLooksAgain(w: World, n: nat, p: Pick)
    requires w.r.phase.Parked? && !w.offered && 1 <= n <= w.queued
    ensures var w' := Step(Step(Step(w, Broadcast(n)), Move(PickNotify)), Move(p));
            && w'.r.phase.Iterating? && w'.r.phase.view == w.db && w'.queued == w.queued - n && !w'.offered
            && w'.r.out == w.r.out && w'.r.key == w.r.key && !w'.r.dirty
  {
    hide Landing;
  }
}

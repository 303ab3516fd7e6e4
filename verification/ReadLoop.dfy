/** `read` as the code has it: a loop over snapshots around a loop over an iterator, both with a
    select, run against an arbitrary schedule of surrounding events. It is proved to take exactly
    the steps of the reader machine, so everything proved about runs of that machine holds of
    this loop. */
module ReadLoop {
  import opened ByteStrings
  import opened Database
  import opened Messages
  import opened Reader
  import opened StreamOptions
  import opened Transactions
  import Store

  class Subscriber {
    // What the goroutine shares with others.
    const prefix: Prefix
    var db: Snapshot
    var watching: bool
    var queued: nat
    var offered: bool
    var resets: seq<Option<StreamOpts>>
    var cancelled: bool
    var published: seq<Msg>

    // The variables that `read` shares with its closure.
    const opts: StreamOpts
    var key: Bytes
    var lastSeen: Bytes
    var count: nat
    var max: U64
    var dirty: bool

    // The schedule, how much of it has happened, and the state of the reader machine then.
    const script: seq<Event>
    var next: nat
    ghost const origin: World
    ghost var w: World

    /** The surroundings are those of the machine after the events so far. */
    ghost predicate Tracks()
      reads this
    {
      && next <= |script| && w == Run(origin, script[..next])
      && w.prefix == prefix && w.db == db && w.watching == watching && w.queued == queued
      && w.offered == offered && w.resets == resets && w.cancelled == cancelled
      && w.r.out == published && w.r.opts == opts
    }

    /** So are the variables of the loop. */
    ghost predicate Follows()
      reads this
    {
      && Tracks()
      && w.r.key == key && w.r.lastSeen == lastSeen && w.r.count == count && w.r.max == max && w.r.dirty == dirty
    }

    /** A reader about to be started in `world`, with everything that will happen around it. */
    constructor (ghost world: World, prefix: Prefix, db: Snapshot, watching: bool, queued: nat, offered: bool,
                 resets: seq<Option<StreamOpts>>, cancelled: bool, opts: StreamOpts, script: seq<Event>)
      requires Initial(world, opts)
      requires world == World(prefix, db, watching, queued, offered, resets, cancelled, {}, world.r)
      ensures Follows() && w.r.phase.Fresh? && next == 0
      ensures this.origin == world && this.script == script && this.opts == opts
    {
      this.prefix, this.db, this.watching, this.queued, this.offered := prefix, db, watching, queued, offered;
      this.resets, this.cancelled, this.published := resets, cancelled, [];
      this.opts, this.key, this.lastSeen, this.count, this.max, this.dirty := opts, [], [], 0, 0, false;
      this.script, this.next, this.origin, this.w := script, 0, world, world;
    }

    /** Counts the next event of the schedule as happened. */
    method Tick()
      requires next < |script| && w == Run(origin, script[..next])
      modifies `next, `w
      ensures next == old(next) + 1 && next <= |script|
      ensures w == Step(old(w), script[old(next)]) && w == Run(origin, script[..next])
    {
      assert script[..next + 1][..next] == script[..next];
      hide Step;
      w := Step(w, script[next]);
      next := next + 1;
    }

    /** One event of the surroundings: a write, the watcher, a cancellation or a reset request. */
    method Surround()
      requires Tracks() && next < |script| && !script[next].Move?
      modifies `next, `w, `db, `watching, `queued, `offered, `resets, `cancelled
      ensures Tracks() && next == old(next) + 1 && w.r == old(w.r)
    {
      hide Apply, Outcome, Written, Moved;
      match script[next] {
        case Write(op) =>
          CommitWrite(op);
          return;
        case Register => watching := true;
        case Broadcast(n) =>
          if !offered && 1 <= n <= queued {
            queued, offered := queued - n, true;
          }
        case Cancel => cancelled := true;
        case RequestReset(reset) => resets := resets + [reset];
      }
      Tick();
    }

    /** A commit counts for the watcher if it touches the channel while the watcher listens. */
    method CommitWrite(op: Op)
      requires Tracks() && next < |script| && script[next] == Write(op)
      modifies `next, `w, `db, `queued
      ensures Tracks() && next == old(next) + 1 && w.r == old(w.r)
    {
      hide Apply, Outcome, Written, Moved;
      var touched := set k | k in Written(db, op) && prefix <= k;
      assert touched == Matching(Written(db, op), prefix);
      queued := if touched != {} && watching then queued + 1 else queued;
      db := Apply(db, op);
      Tick();
    }

    /** Lets everything happen that comes before the reader's next move; false when the schedule
        ends first. */
    method Await() returns (more: bool)
      requires Tracks()
      modifies `next, `w, `db, `watching, `queued, `offered, `resets, `cancelled
      ensures Tracks() && w.r == old(w.r) && old(next) <= next
      ensures next <= |script| && (more <==> next < |script|)
      ensures more ==> script[next].Move?
    {
      while next < |script| && !script[next].Move?
        invariant Tracks() && w.r == old(w.r) && old(next) <= next <= |script|
      {
        hide Tracks, Run;
        Surround();
      }
      more := next < |script|;
    }

    /** The same while the loop variables are in use. */
    method AwaitMove() returns (more: bool)
      requires Follows()
      modifies `next, `w, `db, `watching, `queued, `offered, `resets, `cancelled
      ensures Follows() && w.r == old(w.r) && old(next) <= next
      ensures next <= |script| && (more <==> next < |script|)
      ensures more ==> script[next].Move?
    {
      hide Step, Run, Tracks;
      more := Await();
    }

    method Publish(msg: Msg)
      modifies `published
      ensures published == old(published) + [msg]
    {
      published := published + [msg];
    }

    /** Where the given options start. */
    method SeekPosition(o: StreamOpts) returns (seek: Bytes)
      ensures seek == SeekOf(o, db.Keys, prefix)
    {
      seek := o.seek;
      if o.FromHead() {
        var head := Store.LastKeyIn(db, prefix);
        seek := if head.Some? then head.value else [];
      }
    }

    /** Cursor and limit as the given options say; whether the first entry is skipped is always
        up to the options that the reader was started with. */
    method Position(o: StreamOpts)
      modifies `key, `max, `lastSeen
      ensures key == SeekOf(o, db.Keys, prefix) && max == o.max
      ensures lastSeen == if opts.SkipFirst() then key else old(lastSeen)
    {
      key := SeekPosition(o);
      max := o.max;
      if opts.SkipFirst() {
        lastSeen := key;
      }
    }

    /** What the loops rely on after a snapshot has been left. */
    ghost predicate HasLeft()
      reads this
    {
      && Follows()
      && (count >= max ==> w.r.phase.Returned?)
      && (count < max && dirty ==> w.r.phase.Starting?)
      && (count < max && !dirty ==> w.r.phase.Parked?)
    }

    /** The reader is inside a snapshot below its limit and about to make the move `pick`. */
    ghost predicate Selects(pick: Pick)
      reads this
    {
      Follows() && w.r.phase.Iterating? && count < max && next < |script| && script[next] == Move(pick)
    }

    method SelectCancel()
      requires Selects(PickCancel) && cancelled
      modifies `next, `w
      ensures HasLeft() && next == old(next) + 1
    {
      hide Step, Run;
      MoveSelects(w, PickCancel);
      Tick();
    }

    method SelectNotify()
      requires Selects(PickNotify) && offered
      modifies `next, `w, `offered, `dirty
      ensures Follows() && next == old(next) + 1 && w.r.phase == old(w.r.phase)
    {
      hide Step, Run;
      MoveSelects(w, PickNotify);
      offered := false;
      dirty := true;
      Tick();
    }

    method SelectNilReset()
      requires Selects(PickReset) && resets != [] && resets[0].None?
      modifies `next, `w, `resets
      ensures HasLeft() && next == old(next) + 1
    {
      hide Step, Run;
      MoveSelects(w, PickReset);
      resets := resets[1..];
      Tick();
    }

    method SelectReset()
      requires Selects(PickReset) && resets != [] && resets[0].Some?
      modifies `next, `w, `resets, `key, `max, `dirty, `lastSeen
      ensures HasLeft() && next == old(next) + 1
    {
      hide Step, Run, SeekOf, Select, Repositioned, Leave;
      MoveResets(w);
      var reset := resets[0].value;
      resets := resets[1..];
      dirty := true;
      Position(reset);
      Tick();
    }

    /** A pick that is not ready stands for no move at all. */
    method SelectNothing(pick: Pick)
      requires Selects(pick) && (cancelled || offered || resets != [])
      requires !(pick.PickCancel? && cancelled) && !(pick.PickNotify? && offered) && !(pick.PickReset? && resets != [])
      modifies `next, `w
      ensures Follows() && next == old(next) + 1 && w.r.phase == old(w.r.phase)
    {
      hide Step, Run;
      MoveSelects(w, pick);
      Tick();
    }

    /** The ready cases of the inner select. True when the snapshot is left. */
    method SelectReady(pick: Pick) returns (leaves: bool)
      requires Selects(pick) && (cancelled || offered || resets != [])
      modifies `next, `w, `offered, `resets, `key, `max, `dirty, `lastSeen
      ensures Follows() && next == old(next) + 1
      ensures leaves ==> HasLeft()
      ensures !leaves ==> w.r.phase == old(w.r.phase)
    {
      hide Run, Step, Follows;
      leaves := true;
      if pick.PickCancel? && cancelled {
        SelectCancel();
      } else if pick.PickNotify? && offered {
        SelectNotify();
        leaves := false;
      } else if pick.PickReset? && resets != [] {
        if resets[0].None? {
          SelectNilReset();
        } else {
          SelectReset();
        }
      } else {
        SelectNothing(pick);
        leaves := false;
      }
    }

    method ShowNothing(it: Iterator)
      requires Follows() && w.r.phase == Iterating(it.snapshot, it.cursor) && it.prefix == prefix && !it.Valid()
      requires count < max && !cancelled && !offered && resets == [] && next < |script| && script[next].Move?
      modifies `next, `w
      ensures HasLeft() && next == old(next) + 1
    {
      hide Step, Run, Rendered;
      MoveAdvances(w, script[next].pick);
      Tick();
    }

    method SkipItem(it: Iterator)
      requires Follows() && w.r.phase == Iterating(it.snapshot, it.cursor) && it.prefix == prefix && it.Valid()
      requires count < max && !cancelled && !offered && resets == [] && next < |script| && script[next].Move?
      requires it.cursor.value == lastSeen
      modifies `next, `w, it
      ensures Follows() && next == old(next) + 1 && w.r.phase == Iterating(it.snapshot, it.cursor)
    {
      hide Step, Run, Rendered, LeastOf;
      MoveAdvances(w, script[next].pick);
      it.Next();
      Tick();
    }

    method ShowItem(it: Iterator)
      requires Follows() && w.r.phase == Iterating(it.snapshot, it.cursor) && it.prefix == prefix && it.Valid()
      requires count < max && !cancelled && !offered && resets == [] && next < |script| && script[next].Move?
      requires it.cursor.value != lastSeen
      modifies `next, `w, `published, `key, `lastSeen, `count, it
      ensures Follows() && next == old(next) + 1 && w.r.phase == Iterating(it.snapshot, it.cursor)
    {
      hide Step, Run, Rendered, LeastOf;
      MoveAdvances(w, script[next].pick);
      var item := it.cursor.value;
      Publish(Rendered(opts.KeysOnly(), it.snapshot, item));
      key, lastSeen, count := item, item, count + 1;
      it.Next();
      Tick();
    }

    method AtLimit()
      requires Follows() && w.r.phase.Iterating? && count >= max && next < |script| && script[next].Move?
      modifies `next, `w
      ensures HasLeft() && next == old(next) + 1
    {
      hide Step, Run;
      MoveAtLimit(w, script[next].pick);
      Tick();
    }

    method Open() returns (it: Iterator)
      requires Follows() && w.r.phase.Starting? && next < |script| && script[next].Move?
      modifies `next, `w, `dirty
      ensures Follows() && next == old(next) + 1
      ensures fresh(it) && it.prefix == prefix && w.r.phase == Iterating(it.snapshot, it.cursor)
    {
      hide Step, Run, Landing;
      it := new Iterator(db, prefix);
      it.Seek(key);
      MoveOpens(w, script[next].pick);
      dirty := false;
      Tick();
    }

    /** The function literal `iterate`: one snapshot, walked until its end, the limit, a
        cancellation or a reset. False when the schedule ends inside. */
    method Iterate() returns (more: bool)
      requires Follows() && w.r.phase.Starting? && next < |script| && script[next].Move?
      modifies this
      ensures Follows() && old(next) < next <= |script|
      ensures more ==> HasLeft()
      ensures !more ==> next == |script| && w.r.phase.Iterating?
    {
      hide Step, Run, Tracks;
      var it := Open();
      while true
        invariant Follows() && old(next) < next && fresh(it) && it.prefix == prefix
        invariant w.r.phase == Iterating(it.snapshot, it.cursor)
        decreases |script| - next
      {
        more := AwaitMove();
        if !more {
          return;
        }
        if count >= max {
          AtLimit();
          return;
        }
        if cancelled || offered || resets != [] {
          var leaves := SelectReady(script[next].pick);
          if leaves {
            return;
          }
          continue;
        }
        if !it.Valid() {
          ShowNothing(it);
          return;
        }
        if it.cursor.value == lastSeen {
          SkipItem(it);
          continue;
        }
        ShowItem(it);
      }
    }

    /** Finds the start position. */
    method Begin()
      requires Follows() && w.r.phase.Fresh? && next < |script| && script[next].Move? && w.r.lastSeen == []
      modifies `next, `w, `key, `lastSeen, `max
      ensures Follows() && next == old(next) + 1 && w.r.phase.Starting?
    {
      hide Step, Run, SeekOf;
      Position(opts);
      MoveBegins(w, script[next].pick);
      Tick();
    }

    /** The outer loop. True when the reader returned, false when the schedule ended first; either
        way everything is as the machine has it after the events so far. */
    method Read() returns (returned: bool)
      requires Follows() && Initial(w, opts)
      modifies this
      ensures old(next) <= next <= |script| && (!returned ==> next == |script|)
      ensures published == Run(origin, script[..next]).r.out
      ensures returned <==> Run(origin, script[..next]).r.phase.Returned?
      ensures Follows()
    {
      assert w.r.phase.Fresh? && w.r.lastSeen == [];
      hide Step, Run, Initial;
      var more := AwaitMove();
      if !more {
        return false;
      }
      Begin();
      returned := Loop();
    }

    method Loop() returns (returned: bool)
      requires Follows() && w.r.phase.Starting?
      modifies this
      ensures Follows() && old(next) <= next <= |script|
      ensures returned <==> w.r.phase.Returned?
      ensures !returned ==> next == |script|
    {
      hide Step, Run, Tracks;
      while true
        invariant Follows() && old(next) <= next && w.r.phase.Starting?
        decreases |script| - next
      {
        var more := AwaitMove();
        if !more {
          return false;
        }
        more := Iterate();
        if !more {
          return false;
        }
        if count >= max {
          return true;
        }
        if !dirty {
          var outcome := Wait();
          if outcome != Signalled {
            return outcome == Stopped;
          }
        }
      }
    }

    method WaitCancel()
      requires Follows() && w.r.phase.Parked? && cancelled && next < |script| && script[next] == Move(PickCancel)
      modifies `next, `w
      ensures Follows() && next == old(next) + 1 && w.r.phase.Returned?
    {
      hide Step, Run;
      MoveWaits(w, PickCancel);
      Tick();
    }

    method WaitNotify()
      requires Follows() && w.r.phase.Parked? && offered && next < |script| && script[next] == Move(PickNotify)
      modifies `next, `w, `offered
      ensures Follows() && next == old(next) + 1 && w.r.phase.Starting?
    {
      hide Step, Run;
      MoveWaits(w, PickNotify);
      offered := false;
      Tick();
    }

    method WaitOn(pick: Pick)
      requires Follows() && w.r.phase.Parked? && next < |script| && script[next] == Move(pick)
      requires !(pick.PickCancel? && cancelled) && !(pick.PickNotify? && offered)
      modifies `next, `w
      ensures Follows() && next == old(next) + 1 && w.r.phase.Parked?
    {
      hide Step, Run;
      MoveWaits(w, pick);
      Tick();
    }

    /** The outer select, which listens to the context and to notifications only. */
    method Wait() returns (outcome: WaitResult)
      requires Follows() && w.r.phase.Parked?
      modifies `next, `w, `db, `watching, `queued, `offered, `resets, `cancelled
      ensures Follows() && old(next) <= next
      ensures next <= |script|
      ensures outcome == Signalled ==> w.r.phase.Starting?
      ensures outcome == Stopped ==> w.r.phase.Returned?
      ensures outcome == Unfinished ==> next == |script| && w.r.phase.Parked?
    {
      hide Step, Run, Follows;
      while true
        invariant Follows() && old(next) <= next && w.r.phase.Parked?
        decreases |script| - next
      {
        var more := AwaitMove();
        if !more {
          return Unfinished;
        }
        var pick := script[next].pick;
        if pick.PickCancel? && cancelled {
          WaitCancel();
          return Stopped;
        }
        if pick.PickNotify? && offered {
          WaitNotify();
          return Signalled;
        }
        WaitOn(pick);
      }
    }
  }

  // What one move is, phase by phase.

  lemma MoveBegins(w: World, pick: Pick)
    requires w.r.phase.Fresh?
    ensures Step(w, Move(pick)) == w.(r := Begin(w.r, w.db.Keys, w.prefix))
  {
  }

  lemma MoveOpens(w: World, pick: Pick)
    requires w.r.phase.Starting?
    ensures Step(w, Move(pick)) == w.(r := OpenSnapshot(w.r, w.db, w.prefix))
  {
  }

  lemma MoveAtLimit(w: World, pick: Pick)
    requires w.r.phase.Iterating? && w.r.count >= w.r.max
    ensures Step(w, Move(pick)) == w.(r := Leave(w.r, w.r.phase.view))
  {
  }

  lemma MoveSelects(w: World, pick: Pick)
    requires w.r.phase.Iterating? && w.r.count < w.r.max && (w.cancelled || w.offered || w.resets != [])
    ensures Step(w, Move(pick)) == Select(w, pick, w.r.phase.view)
  {
  }

  lemma MoveResets(w: World)
    requires w.r.phase.Iterating? && w.r.count < w.r.max && w.resets != [] && w.resets[0].Some?
    ensures var opts, w' := w.resets[0].value, Step(w, Move(PickReset));
            && w' == w.(resets := w.resets[1..], r := w'.r)
            && w'.r.key == SeekOf(opts, w.db.Keys, w.prefix) && w'.r.max == opts.max && w'.r.dirty
            && w'.r.lastSeen == (if w.r.opts.SkipFirst() then w'.r.key else w.r.lastSeen)
            && w'.r.count == w.r.count && w'.r.out == w.r.out && w'.r.opts == w.r.opts
            && w'.r.phase == if w.r.count >= opts.max then Returned else Starting
  {
    hide SeekOf;
    MoveSelects(w, PickReset);
  }

  lemma MoveAdvances(w: World, pick: Pick)
    requires w.r.phase.Iterating? && w.r.count < w.r.max && !w.cancelled && !w.offered && w.resets == []
    ensures Step(w, Move(pick)) == w.(r := Advance(w.r, w.prefix))
  {
  }

  lemma MoveWaits(w: World, pick: Pick)
    requires w.r.phase.Parked?
    ensures Step(w, Move(pick)) ==
            if pick.PickCancel? && w.cancelled then w.(r := w.r.(phase := Returned))
            else if pick.PickNotify? && w.offered then w.(offered := false, r := w.r.(phase := Starting))
            else w
  {
  }

  datatype WaitResult = Signalled | Stopped | Unfinished
}

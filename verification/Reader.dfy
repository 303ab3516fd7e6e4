/** The live reader of a subscription as a step machine: one reader goroutine, the database, the
    notifications on their way to it, the resets that wait for it and its context. Every choice
    that the scheduler or a `select` can make is an event, so a run is a sequence of events. */
module Reader {
  import opened ByteStrings
  import opened Database
  import opened Keys
  import opened Messages
  import opened StreamOptions
  import opened Transactions

  /** The prefix of some channel's entry keys. */
  type Prefix = b: Bytes | |b| == PREFIX_SIZE && b[32] == KEYSPACE_ENTRIES witness seq(PREFIX_SIZE, _ => 1)

  /** History of the reader between two resets: where it started (`seek`), the last key it had
      seen by then (`skip`), the limit in force, the number of entries published earlier, and
      the keys published since, each with the snapshot it was read from. */
  datatype Epoch = Epoch(
    seek: Bytes, skip: Bytes, max: U64, before: nat,
    keys: seq<Bytes>, views: seq<Snapshot>)

  datatype Phase =
    | Fresh                                            // `read` has been called
    | Starting                                         // about to open a snapshot
    | Iterating(view: Snapshot, at: Option<Bytes>)     // inside the snapshot, iterator at `at`
    | Parked(view: Snapshot)                           // in the outer select, after snapshot `view`
    | Returned

  /** Local variables of `read`, then the history kept for the proofs: past epochs, the current
      epoch, every message published, and whether a nil reset cut the last snapshot short. */
  datatype ReaderState = ReaderState(
    opts: StreamOpts, phase: Phase,
    key: Bytes, lastSeen: Bytes, count: nat, max: U64, dirty: bool,
    past: seq<Epoch>, epoch: Epoch, out: seq<Msg>, cut: bool)

  /** `queued` counts commits to the channel that the watcher has not broadcast yet; `offered`
      says that the watcher blocks on sending to this reader. `unwatched` records entries that
      were committed before the watcher was registered with the database. */
  datatype World = World(
    prefix: Prefix, db: Snapshot,
    watching: bool, queued: nat, offered: bool, resets: seq<Option<StreamOpts>>, cancelled: bool,
    unwatched: set<Bytes>, r: ReaderState)

  /** Which ready case a `select` takes. */
  datatype Pick = PickCancel | PickNotify | PickReset

  datatype Event =
    | Write(op: Op)                                // a write transaction by anyone
    | Register                                     // the watcher's database subscription takes effect
    | Broadcast(n: nat)                            // the watcher takes n queued commits in one callback
    | Cancel                                       // the subscription's context is cancelled
    | RequestReset(reset: Option<StreamOpts>)      // another Subscribe for the same target
    | Move(pick: Pick)                             // the reader runs to its next scheduling point

  ghost function Step(w: World, e: Event): World {
    match e
    case Write(op) =>
      var touched := Matching(Written(w.db, op), w.prefix);
      w.(db := Apply(w.db, op),
         queued := if touched != {} && w.watching then w.queued + 1 else w.queued,
         unwatched := if w.watching then w.unwatched else w.unwatched + touched)
    case Register => w.(watching := true)
    case Broadcast(n) => if !w.offered && 1 <= n <= w.queued then w.(queued := w.queued - n, offered := true) else w
    case Cancel => w.(cancelled := true)
    case RequestReset(reset) => w.(resets := w.resets + [reset])
    case Move(pick) => Moved(w, pick)
  }

  ghost function Run(w: World, es: seq<Event>): World {
    if es == [] then w else Step(Run(w, es[..|es| - 1]), es[|es| - 1])
  }

  /** The keys that a write puts into the database. */
  function Written(db: Snapshot, op: Op): set<Bytes> {
    if Outcome(db, op).Some? then {}
    else match op
      case Append(c, entry, seconds, _) =>
        {EntryKey(c, EntryID(entry).value), ArrivalKey(c, EntryID(entry).value, seconds)}
      case Upsert(key, _, _) => {key}
  }

  ghost function Moved(w: World, pick: Pick): World {
    match w.r.phase
    case Fresh => w.(r := Begin(w.r, w.db.Keys, w.prefix))
    case Starting => w.(r := OpenSnapshot(w.r, w.db, w.prefix))
    case Iterating(view, _) =>
      if w.r.count >= w.r.max then w.(r := Leave(w.r, view))
      else if w.cancelled || w.offered || w.resets != [] then Select(w, pick, view)
      else w.(r := Advance(w.r, w.prefix))
    case Parked(_) =>
      if pick.PickCancel? && w.cancelled then w.(r := w.r.(phase := Returned))
      else if pick.PickNotify? && w.offered then w.(offered := false, r := w.r.(phase := Starting))
      else w
    case Returned => w
  }

  /** The greatest entry key at this moment; empty, that is nil, for a channel without entries. */
  ghost function HeadSeek(keys: set<Bytes>, prefix: Bytes): Bytes {
    var head := HeadKey(keys, prefix);
    if head.Some? then head.value else []
  }

  ghost function Begin(r: ReaderState, keys: set<Bytes>, prefix: Bytes): ReaderState {
    var seek := SeekOf(r.opts, keys, prefix);
    var lastSeen := if r.opts.SkipFirst() then seek else [];
    r.(phase := Starting, key := seek, max := r.opts.max, lastSeen := lastSeen,
       epoch := Epoch(seek, lastSeen, r.opts.max, 0, [], []))
  }

  ghost function OpenSnapshot(r: ReaderState, db: Snapshot, prefix: Bytes): ReaderState {
    r.(dirty := false, cut := false, phase := Iterating(db, Landing(db.Keys, r.key, prefix)))
  }

  /** After a snapshot: done, or again at once when dirty, or wait. */
  ghost function Leave(r: ReaderState, view: Snapshot): ReaderState {
    r.(phase := if r.count >= r.max then Returned else if r.dirty then Starting else Parked(view))
  }

  /** The inner select when some case is ready; a pick that is not ready does nothing. */
  ghost function Select(w: World, pick: Pick, view: Snapshot): World {
    match pick
    case PickCancel => if w.cancelled then w.(r := Leave(w.r, view)) else w
    case PickNotify => if w.offered then w.(offered := false, r := w.r.(dirty := true)) else w
    case PickReset =>
      if w.resets == [] then w
      else w.(resets := w.resets[1..], r := TakeReset(w.r, w.resets[0], w.db.Keys, w.prefix, view))
  }

  /** Where options start: at the channel's head of this moment, or where they say. */
  ghost function SeekOf(opts: StreamOpts, keys: set<Bytes>, prefix: Bytes): Bytes {
    if opts.FromHead() then HeadSeek(keys, prefix) else opts.seek
  }

  /** A non-nil reset moves the cursor and the limit, keeps the count and the original options,
      and keeps `lastSeen` unless the original options skip the first entry. */
  ghost function Repositioned(r: ReaderState, seek: Bytes, max: U64): ReaderState {
    var lastSeen := if r.opts.SkipFirst() then seek else r.lastSeen;
    r.(dirty := true, key := seek, max := max, lastSeen := lastSeen,
       past := r.past + [r.epoch], epoch := Epoch(seek, lastSeen, max, r.count, [], []))
  }

  /** Either kind of reset leaves the snapshot; a nil one does nothing else. */
  ghost function TakeReset(r: ReaderState, reset: Option<StreamOpts>, keys: set<Bytes>, prefix: Bytes,
                           view: Snapshot): ReaderState
  {
    match reset
    case None => Leave(r.(cut := true), view)
    case Some(opts) => Leave(Repositioned(r, SeekOf(opts, keys, prefix), opts.max), view)
  }

  /** The message published for `key`: its ID alone, or what was stored. */
  function Rendered(keysOnly: bool, view: Snapshot, key: Bytes): Msg
    requires |key| >= PREFIX_SIZE
  {
    if keysOnly then IDOnly(EntryIDFromKey(key))
    else if key in view then Unmarshal(view[key])
    else EMPTY_MSG
  }

  /** The default case of the inner select. */
  ghost function Advance(r: ReaderState, prefix: Prefix): ReaderState
    requires r.phase.Iterating?
  {
    var Iterating(view, at) := r.phase;
    if !OnPrefix(at, prefix) then Leave(r, view)
    else
      var k := at.value;
      var next := Iterating(view, LeastOf(KeysAbove(view.Keys, k)));
      if k == r.lastSeen then r.(phase := next)
      else r.(phase := next, key := k, lastSeen := k, count := r.count + 1,
              out := r.out + [Rendered(r.opts.KeysOnly(), view, k)],
              epoch := r.epoch.(keys := r.epoch.keys + [k], views := r.epoch.views + [view]))
  }

  /** A reader that was just created for `opts`, in any surroundings without an older history. */
  ghost predicate Initial(w: World, opts: StreamOpts) {
    && w.unwatched == {}
    && w.r == ReaderState(opts, Fresh, [], [], 0, 0, false, [], Epoch([], [], 0, 0, [], []), [], false)
  }

  /** Raw upserts stay out of the channels. */
  predicate LawfulRun(es: seq<Event>) {
    forall i :: 0 <= i < |es| && es[i].Write? ==> Lawful(es[i].op)
  }
}

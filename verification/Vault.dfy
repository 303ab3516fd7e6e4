/** One connection of a running vault as a whole: its session together with the readers that
    publish through it, all over the same database. */
module Vault {
  import opened Database
  import opened Keys
  import opened Messages
  import opened StreamOptions
  import opened Transactions
  import IndexReplay
  import Reader
  import Session

  /** A reader of the connection: the live machine, with the world that it was started in and all
      that has happened to it since as its history, and how many resets the session had noted by then;
      or an index replay with its options, the database that it was started on as its history, the
      snapshot it took, what it has sent, and whether it has returned. */
  datatype Feeder =
    | Live(w: Reader.World, origin: Reader.World, events: seq<Reader.Event>, since: nat)
    | Replay(opts: StreamOpts, begun: Snapshot, view: Option<Snapshot>, out: seq<Msg>, cancelled: bool, done: bool)
  {
    ghost function Options(): StreamOpts { if Live? then w.r.opts else opts }
    ghost function Sent(): seq<Msg> { if Live? then w.r.out else out }
    ghost predicate Stopped() { if Live? then w.cancelled else cancelled }
    ghost predicate Finished() { if Live? then w.r.phase.Returned? else done }
  }

  /** `watchers` are the channels whose watcher is registered with the database. `sources` tells for
      each message sent the stream whose reader published it, and nothing for a reply. */
  datatype State = State(
    s: Session.Session, watchers: set<ChannelID>, feeders: map<ChannelID, Feeder>, sources: seq<Option<nat>>)

  datatype Event =
    | Request(req: Session.FeedReq, seconds: Seconds, fault: Fault)
    | SendReply
    | OtherWrite(op: Op)                              // a write by another connection or a peer
    | Register(channel: ChannelID)                    // the channel's watcher takes effect
    | Broadcast(channel: ChannelID, n: nat)           // the watcher notifies this connection's reader
    | Move(channel: ChannelID, pick: Reader.Pick)     // a reader runs to its next scheduling point
    | Exit(channel: ChannelID)                        // a reader that has returned unsubscribes
    | Disconnect

  // ---------- Readers ----------

  ghost function NewFeeder(c: ChannelID, opts: StreamOpts, db: Snapshot, watching: bool, since: nat): Feeder {
    if opts.FromIndex() then Replay(opts, db, None, [], false, false)
    else var w := NewWorld(c, opts, db, watching); Live(w, w, [], since)
  }

  /** The surroundings of a reader that was just created. */
  ghost function NewWorld(c: ChannelID, opts: StreamOpts, db: Snapshot, watching: bool): Reader.World {
    Reader.World(EntryPrefix(c), db, watching, 0, false, [], false, {},
      Reader.ReaderState(opts, Reader.Fresh, [], [], 0, 0, false, [],
                         Reader.Epoch([], [], 0, 0, [], []), [], false))
  }

  /** Something happens around a reader. An index replay notices nothing but its context. */
  ghost function Touched(f: Feeder, e: Reader.Event): Feeder {
    match f
    case Live(w, origin, events, since) => Live(Reader.Step(w, e), origin, events + [e], since)
    case Replay(_, _, _, _, _, _) => if e.Cancel? then f.(cancelled := true) else f
  }

  /** A reader moves; an index replay takes its snapshot first, and then looks at its limit, a
      notification, its context, or the next key of its order. */
  ghost function Moved(f: Feeder, c: ChannelID, db: Snapshot, pick: Reader.Pick): Feeder {
    match f
    case Live(w, origin, events, since) =>
      Live(Reader.Step(w, Reader.Move(pick)), origin, events + [Reader.Move(pick)], since)
    case Replay(opts, _, view, out, cancelled, done) =>
      if done then f
      else if view.None? then f.(view := Some(db))
      else if |out| >= opts.max then f.(done := true)
      else if pick.PickNotify? then f
      else if cancelled then f.(done := true)
      else
        var order := IndexReplay.ReplayOrder(view.value.Keys, c, opts.seek);
        if |out| < |order| && |order[|out|]| >= 39
           && (opts.KeysOnly() || EntryKeyFromIndex(c, order[|out|]) in view.value)
        then f.(out := out + [IndexReplay.Replayed(opts.KeysOnly(), view.value, c, order[|out|])])
        else f.(done := true)
  }

  // ---------- Requests and readers ----------

  /** The append that a request leads to, if it is well-formed. */
  function WriteOf(hash: string -> ChannelID, req: Session.FeedReq, seconds: Seconds, fault: Fault): Option<Op> {
    if !(req.ChannelGenesis? || req.AppendEntry?) || req.entry.None? || FeedURI(req.entry.value) == "" then None
    else if |req.entry.value.body| == 0 || |req.entry.value.body| > Session.MAX_BODY_SIZE then None
    else Some(Op.Append(hash(FeedURI(req.entry.value)), req.entry.value, seconds, fault))
  }

  /** The channel that a request opens, if it is well-formed. */
  function OpenOf(hash: string -> ChannelID, req: Session.FeedReq): Option<ChannelID> {
    if req.OpenFeed? && req.open.Some? && req.open.value.feedURI != "" then Some(hash(req.open.value.feedURI)) else None
  }

  /** What handling a request does to the reader that is there for channel `c`. */
  function Effect(hash: string -> ChannelID, s: Session.Session, req: Session.FeedReq, seconds: Seconds,
                  fault: Fault, c: ChannelID): Option<Reader.Event>
  {
    if WriteOf(hash, req, seconds, fault).Some? then Some(Reader.Write(WriteOf(hash, req, seconds, fault).value))
    else if OpenOf(hash, req) == Some(c) then Some(Reader.RequestReset(Session.Translated(req.open.value)))
    else if req.CancelReq? && req.reqID in s.streams && c in s.readers && s.streams[req.reqID] == s.readers[c]
    then Some(Reader.Cancel)
    else None
  }

  ghost function TouchedAll(feeders: map<ChannelID, Feeder>, e: Reader.Event): map<ChannelID, Feeder> {
    map c | c in feeders :: Touched(feeders[c], e)
  }

  ghost function AfterRequest(hash: string -> ChannelID, v: State, req: Session.FeedReq, seconds: Seconds,
                              fault: Fault): map<ChannelID, Feeder>
  {
    var there := map c | c in v.feeders ::
      var effect := Effect(hash, v.s, req, seconds, fault, c);
      if effect.Some? then Touched(v.feeders[c], effect.value) else v.feeders[c];
    var c := OpenOf(hash, req);
    if c.Some? && c.value !in v.feeders && Session.Translated(req.open.value).Some?
    then there[c.value := NewFeeder(c.value, Session.Translated(req.open.value).value, v.s.db, c.value in v.watchers,
                                    |v.s.resets|)]
    else there
  }

  // ---------- The whole ----------

  /** What an event is to the session, if anything. */
  ghost function SessionEvent(v: State, e: Event): Option<Session.Event> {
    match e
    case Request(req, seconds, fault) => Some(Session.Receive(req, seconds, fault))
    case SendReply => Some(Session.SendReply)
    case OtherWrite(op) => Some(Session.OtherWrite(op))
    case Register(_) => None
    case Broadcast(_, _) => None
    case Move(c, pick) =>
      if c !in v.feeders then None
      else
        var out := Moved(v.feeders[c], c, v.s.db, pick).Sent();
        if |out| == |v.feeders[c].Sent()| || out == [] then None else Some(Session.Publish(c, out[|out| - 1]))
    case Exit(c) => if c in v.feeders && v.feeders[c].Finished() then Some(Session.ReaderExit(c)) else None
    case Disconnect => Some(Session.Disconnect)
  }

  ghost function Feeders(hash: string -> ChannelID, v: State, e: Event): map<ChannelID, Feeder> {
    match e
    case Request(req, seconds, fault) =>
      if v.s.status == Session.Serving && v.s.pending.None? then AfterRequest(hash, v, req, seconds, fault)
      else v.feeders
    case SendReply => v.feeders
    case OtherWrite(op) => TouchedAll(v.feeders, Reader.Write(op))
    case Register(c) =>
      if c in v.feeders then v.feeders[c := Touched(v.feeders[c], Reader.Register)] else v.feeders
    case Broadcast(c, n) =>
      if c in v.feeders then v.feeders[c := Touched(v.feeders[c], Reader.Broadcast(n))] else v.feeders
    case Move(c, pick) =>
      if c in v.feeders then v.feeders[c := Moved(v.feeders[c], c, v.s.db, pick)] else v.feeders
    case Exit(c) => if c in v.feeders && v.feeders[c].Finished() then v.feeders - {c} else v.feeders
    case Disconnect => TouchedAll(v.feeders, Reader.Cancel)
  }

  ghost function Step(hash: string -> ChannelID, v: State, e: Event): State {
    var se := SessionEvent(v, e);
    var s' := if se.Some? then Session.Step(hash, v.s, se.value) else v.s;
    var n := if e.Move? && e.channel in v.s.readers then Some(v.s.readers[e.channel]) else None;
    State(s', if e.Register? then v.watchers + {e.channel} else v.watchers, Feeders(hash, v, e),
          if |s'.sent| > |v.s.sent| then v.sources + [n] else v.sources)
  }

  ghost function Run(hash: string -> ChannelID, v: State, es: seq<Event>): State {
    if es == [] then v else Step(hash, Run(hash, v, es[..|es| - 1]), es[|es| - 1])
  }

  function NewVault(db: Snapshot, watchers: set<ChannelID>): State {
    State(Session.NewSession(db), watchers, map[], [])
  }

  /** Raw upserts stay out of the channels. */
  predicate LawfulEvents(es: seq<Event>) {
    forall i :: 0 <= i < |es| && es[i].OtherWrite? ==> Lawful(es[i].op)
  }
}

/** The request protocol of one connection: requests are answered one by one while the readers of
    its subscriptions publish in between. The specification of the server's handlers. */
module Session {
  import opened ByteStrings
  import opened Database
  import opened Keys
  import opened Messages
  import opened StreamOptions
  import opened Transactions

  const MAX_BODY_SIZE := 10000000

  datatype StreamMode =
    | DontStream | FromGenesis | AtEntry | AfterEntry | AfterHead | FromIndex | UnknownMode

  datatype OpenReq = OpenReq(
    feedURI: string, mode: StreamMode, seekEntryID: Bytes, maxEntries: ReqID, idsOnly: bool)

  /** `open` and `entry` are absent when the request does not carry them. */
  datatype FeedReq =
    | ChannelGenesis(reqID: ReqID, entry: Option<Msg>)
    | OpenFeed(reqID: ReqID, open: Option<OpenReq>)
    | CancelReq(reqID: ReqID)
    | AppendEntry(reqID: ReqID, entry: Option<Msg>)
    | UnsupportedOp(reqID: ReqID)

  /** A stream object made by an accepted open. It outlives its place in the connection's map. */
  datatype Stream = Stream(id: ReqID, channel: ChannelID, cancelled: bool)

  datatype Status = Serving | Closed | Crashed

  datatype Sent = Reply(msg: Msg) | Feed(channel: ChannelID, msg: Msg)

  /** `created` lists the streams in the order in which they were made, and `streams` and `readers`
      refer to them by position. `readers` is this connection's part of the channels' subscriber
      tables: for each channel with an unfinished reader the stream that reader publishes to and
      whose context it obeys. `handled` lists the requests answered so far, `resets` what was
      passed to readers that were already there. */
  datatype Session = Session(
    status: Status, db: Snapshot,
    created: seq<Stream>, streams: map<ReqID, nat>, readers: map<ChannelID, nat>,
    resets: seq<(ChannelID, Option<StreamOpts>)>,
    handled: seq<FeedReq>, pending: Option<Msg>, sent: seq<Sent>)

  datatype Event =
    | Receive(req: FeedReq, seconds: Seconds, fault: Fault)
    | SendReply
    | Publish(channel: ChannelID, msg: Msg)      // a reader of this connection publishes
    | ReaderExit(channel: ChannelID)             // a reader of this connection unsubscribes
    | OtherWrite(op: Op)                         // a write by another connection or a peer
    | Disconnect                                 // end of input, a receive error, or shutdown

  /** The options that an open request asks for; none for a request without streaming. */
  function Translated(req: OpenReq): Option<StreamOpts> {
    if req.mode == DontStream then None
    else
      var max := if req.maxEntries > 0 then req.maxEntries else TAIL;
      var seek := if req.mode in {FromGenesis, AfterHead, FromIndex} then [] else req.seekEntryID;
      Some(StreamOpts(seek, max,
        (if req.idsOnly then OPT_KEYS_ONLY else OPT_NONE)
        | (if req.mode in {AfterEntry, AfterHead} then OPT_SKIP_FIRST else OPT_NONE)
        | (if req.mode == AfterHead then OPT_FROM_HEAD else OPT_NONE)
        | (if req.mode == FromGenesis then OPT_FROM_GENESIS else OPT_NONE)
        | (if req.mode == FromIndex then OPT_FROM_INDEX else OPT_NONE)))
  }

  function ErrorReply(reqID: ReqID, code: ErrCode): Msg {
    EMPTY_MSG.(op := ReqDiscarded, reqID := reqID, err := Some(code))
  }

  /** Appending and genesis: the new database and the reply. */
  function Appended(hash: string -> ChannelID, db: Snapshot, reqID: ReqID, entry: Option<Msg>,
                    seconds: Seconds, fault: Fault): (Snapshot, Msg)
  {
    var e := if entry.Some? then entry.value else EMPTY_MSG;
    if FeedURI(e) == "" then (db, ErrorReply(reqID, InvalidFeedURI))
    else if |e.body| == 0 || |e.body| > MAX_BODY_SIZE then (db, ErrorReply(reqID, InvalidRequest))
    else
      var op := Op.Append(hash(FeedURI(e)), e, seconds, fault);
      if Outcome(db, op).Some? then (Apply(db, op), ErrorReply(reqID, DatabaseError))
      else
        (Apply(db, op),
         EMPTY_MSG.(op := ReqComplete, reqID := reqID,
                    header := Some(EntryHeader(ReturnedKey(op), [], [], "", ""))))
  }

  function OpenReply(reqID: ReqID): Msg {
    EMPTY_MSG.(op := ReqComplete, reqID := reqID, status := Some(Working))
  }

  /** A reader that is already there for this connection and channel is only told the new
      options; otherwise one is started on the stream `n`. Starting one without options
      dereferences nil. */
  function Subscribed(s: Session, c: ChannelID, n: nat, opts: Option<StreamOpts>): Session {
    if c in s.readers then s.(resets := s.resets + [(c, opts)])
    else if opts.None? then s.(status := Crashed)
    else s.(readers := s.readers[c := n])
  }

  /** A new stream takes the request's place in the map and is subscribed to its channel. */
  function Opened(s: Session, reqID: ReqID, c: ChannelID, opts: Option<StreamOpts>): Session {
    Subscribed(s.(created := s.created + [Stream(reqID, c, false)], streams := s.streams[reqID := |s.created|]),
               c, |s.created|, opts)
  }

  function Cancelled(s: Session, reqID: ReqID): Session {
    if reqID in s.streams && s.streams[reqID] < |s.created| then
      var n := s.streams[reqID];
      s.(created := s.created[n := s.created[n].(cancelled := true)], streams := s.streams - {reqID})
    else s
  }

  function Handled(hash: string -> ChannelID, s: Session, req: FeedReq, seconds: Seconds, fault: Fault): (Session, Msg) {
    match req
    case OpenFeed(reqID, open) =>
      if open.None? then (s, ErrorReply(reqID, InvalidRequest))
      else if open.value.feedURI == "" then (s, ErrorReply(reqID, InvalidFeedURI))
      else (Opened(s, reqID, hash(open.value.feedURI), Translated(open.value)), OpenReply(reqID))
    case CancelReq(reqID) =>
      (Cancelled(s, reqID), EMPTY_MSG.(op := ReqDiscarded, reqID := reqID))
    case UnsupportedOp(reqID) => (s, ErrorReply(reqID, InvalidRequest))
    case _ =>
      var (db, reply) := Appended(hash, s.db, req.reqID, req.entry, seconds, fault);
      (s.(db := db), reply)
  }

  lemma HandlerKeepsNotes(hash: string -> ChannelID, s: Session, req: FeedReq, seconds: Seconds, fault: Fault)
    ensures Handled(hash, s, req, seconds, fault).0.handled == s.handled
    ensures Handled(hash, s, req, seconds, fault).0.sent == s.sent
  {
    hide Translated, Appended;
  }

  function Step(hash: string -> ChannelID, s: Session, e: Event): Session {
    match e
    case Receive(req, seconds, fault) =>
      if s.status != Serving || s.pending.Some? then s
      else
        var (s', reply) := Handled(hash, s, req, seconds, fault);
        s'.(handled := s.handled + [req], pending := if s'.status == Crashed then None else Some(reply))
    case SendReply =>
      if s.pending.None? then s else s.(pending := None, sent := s.sent + [Reply(s.pending.value)])
    case Publish(c, msg) =>
      if c in s.readers && s.readers[c] < |s.created|
      then s.(sent := s.sent + [Feed(c, msg.(reqID := s.created[s.readers[c]].id))])
      else s
    case ReaderExit(c) => s.(readers := s.readers - {c})
    case OtherWrite(op) => s.(db := Apply(s.db, op))
    case Disconnect => s.(status := if s.status == Crashed then Crashed else Closed)
  }

  function Run(hash: string -> ChannelID, s: Session, es: seq<Event>): Session {
    if es == [] then s else Step(hash, Run(hash, s, es[..|es| - 1]), es[|es| - 1])
  }

  lemma RunStarts(hash: string -> ChannelID, s: Session, es: seq<Event>)
    ensures Run(hash, s, es[..0]) == s
  {
  }

  lemma RunSteps(hash: string -> ChannelID, s: Session, script: seq<Event>, n: nat)
    requires n < |script|
    ensures Run(hash, s, script[..n + 1]) == Step(hash, Run(hash, s, script[..n]), script[n])
  {
    hide Step;
    assert script[..n + 1][..n] == script[..n];
  }

  function NewSession(db: Snapshot): Session {
    Session(Serving, db, [], map[], map[], [], [], None, [])
  }
}

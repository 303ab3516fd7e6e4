/** The server's handlers and request loop as objects: one connection with its streams over the
    shared store. Each handler is proved to do what the session specification says. */
module Server {
  import opened Keys
  import opened Messages
  import opened StreamOptions
  import opened Transactions
  import Session
  import Store

  class Stream {
    const id: ReqID
    const channel: ChannelID
    const serial: nat
    var cancelled: bool

    constructor (id: ReqID, channel: ChannelID, serial: nat)
      ensures this.id == id && this.channel == channel && this.serial == serial && !cancelled
    {
      this.id, this.channel, this.serial, cancelled := id, channel, serial, false;
    }

    /** The stream as the session specification records it. */
    ghost function Recorded(): Session.Stream
      reads this
    {
      Session.Stream(id, channel, cancelled)
    }
  }

  class Connection {
    const hash: string -> ChannelID
    const store: Store.Store
    var status: Session.Status
    var streams: map<ReqID, Stream>
    var readers: map<ChannelID, Stream>
    var pending: Option<Msg>
    var sent: seq<Session.Sent>

    // History of the connection.
    ghost var created: seq<Stream>
    ghost var resets: seq<(ChannelID, Option<StreamOpts>)>
    ghost var handled: seq<Session.FeedReq>
    var serials: nat

    ghost predicate Known(s: Stream)
      reads this
    {
      s.serial < |created| && created[s.serial] == s
    }

    ghost predicate Valid()
      reads this, store, store.channels.Values
    {
      && store.Valid() && serials == |created|
      && (forall n :: 0 <= n < |created| ==> created[n].serial == n)
      && (forall k :: k in streams ==> Known(streams[k]))
      && (forall c :: c in readers ==> Known(readers[c]))
    }

    ghost function Streams(): seq<Session.Stream>
      reads this, created
    {
      seq(|created|, n requires 0 <= n < |created| reads this, created => created[n].Recorded())
    }

    ghost function StreamTable(): map<ReqID, nat>
      reads this
    {
      map k | k in streams :: streams[k].serial
    }

    ghost function ReaderTable(): map<ChannelID, nat>
      reads this
    {
      map c | c in readers :: readers[c].serial
    }

    /** The connection and the database as one session. */
    ghost function View(): Session.Session
      reads this, created, store
    {
      Session.Session(status, store.db, Streams(), StreamTable(), ReaderTable(), resets, handled, pending, sent)
    }

    constructor (hash: string -> ChannelID, store: Store.Store)
      requires store.Valid()
      ensures Valid() && View() == Session.NewSession(store.db) && this.hash == hash && this.store == store
    {
      this.hash, this.store, status := hash, store, Session.Serving;
      streams, readers, pending, sent := map[], map[], None, [];
      created, resets, handled, serials := [], [], [], 0;
    }

    method ErrorResponse(reqID: ReqID, code: ErrCode) returns (reply: Msg)
      ensures reply == Session.ErrorReply(reqID, code)
    {
      reply := EMPTY_MSG.(op := ReqDiscarded, reqID := reqID, err := Some(code));
    }

    /** Registers the new stream as the channel's reader for this connection, or passes the
        options on to the reader that is there. */
    method Subscribe(c: ChannelID, stream: Stream, opts: Option<StreamOpts>)
      requires Valid() && Known(stream)
      modifies `readers, `resets, `status
      ensures Valid() && View() == Session.Subscribed(old(View()), c, stream.serial, opts)
    {
      if c in readers {
        resets := resets + [(c, opts)];
        return;
      }
      if opts.None? {
        status := Session.Crashed;
        return;
      }
      readers := readers[c := stream];
      assert ReaderTable() == old(ReaderTable())[c := stream.serial];
    }

    method Open(reqID: ReqID, open: Option<Session.OpenReq>, ghost seconds: Seconds, ghost fault: Fault)
      returns (reply: Msg)
      requires Valid()
      modifies this, store`channels
      ensures Valid()
      ensures (View(), reply) == Session.Handled(hash, old(View()), Session.OpenFeed(reqID, open), seconds, fault)
      ensures old(created) <= created && fresh(created[|old(created)|..])
    {
      hide Session.Translated;
      if open.None? {
        reply := ErrorResponse(reqID, InvalidRequest);
        return;
      }
      if open.value.feedURI == "" {
        reply := ErrorResponse(reqID, InvalidFeedURI);
        return;
      }
      OpenStream(reqID, hash(open.value.feedURI), open.value);
      reply := EMPTY_MSG.(op := ReqComplete, reqID := reqID, status := Some(Working));
    }

    method OpenStream(reqID: ReqID, c: ChannelID, req: Session.OpenReq)
      requires Valid()
      modifies this, store`channels
      ensures Valid() && View() == Session.Opened(old(View()), reqID, c, Session.Translated(req))
      ensures old(created) <= created && fresh(created[|old(created)|..])
    {
      hide Session.Translated, Session.Subscribed, View;
      var stream := CreateStream(reqID, c);
      var opts := NewStreamOpts(req);
      Subscribe(c, stream, opts);
    }

    method CreateStream(reqID: ReqID, c: ChannelID) returns (stream: Stream)
      requires Valid()
      modifies `streams, `created, `serials, store`channels
      ensures Valid() && Known(stream) && fresh(stream) && created == old(created) + [stream]
      ensures stream.serial == |old(View()).created|
      ensures View() == old(View()).(created := old(View()).created + [Session.Stream(reqID, c, false)],
                                     streams := old(View()).streams[reqID := |old(View()).created|])
    {
      var channel := store.ChannelFor(c);
      stream := new Stream(reqID, channel.id, serials);
      assert Streams() == old(Streams()) && StreamTable() == old(StreamTable()) && ReaderTable() == old(ReaderTable());
      Register(stream);
    }

    /** Puts a new stream under its request ID. */
    method Register(stream: Stream)
      requires Valid() && stream.serial == serials && !stream.cancelled && stream !in created
      modifies `streams, `created, `serials
      ensures Valid() && Known(stream) && created == old(created) + [stream]
      ensures View() == old(View()).(created := old(Streams()) + [stream.Recorded()],
                                     streams := old(View()).streams[stream.id := |old(created)|])
    {
      streams := streams[stream.id := stream];
      created := created + [stream];
      serials := serials + 1;
      assert StreamTable() == old(StreamTable())[stream.id := stream.serial];
      assert Streams() == old(Streams()) + [stream.Recorded()];
    }

    method Close(reqID: ReqID, ghost seconds: Seconds, ghost fault: Fault) returns (reply: Msg)
      requires Valid()
      modifies `streams, created
      ensures Valid()
      ensures (View(), reply) == Session.Handled(hash, old(View()), Session.CancelReq(reqID), seconds, fault)
    {
      if reqID in streams {
        Done(streams[reqID], reqID);
      }
      reply := EMPTY_MSG.(op := ReqDiscarded, reqID := reqID);
    }

    /** Cancels the stream's context and takes it out of the map. */
    method Done(stream: Stream, reqID: ReqID)
      requires Valid() && reqID in streams && streams[reqID] == stream
      modifies stream, `streams
      ensures Valid() && View() == Session.Cancelled(old(View()), reqID)
    {
      stream.cancelled := true;
      streams := streams - {reqID};
      ghost var n := stream.serial;
      assert Streams() == old(Streams())[n := old(Streams())[n].(cancelled := true)];
      assert StreamTable() == old(StreamTable()) - {reqID};
    }

    method Append(reqID: ReqID, entry: Option<Msg>, seconds: Seconds, fault: Fault) returns (reply: Msg)
      requires Valid()
      modifies store`channels, store`db
      ensures Valid()
      ensures var (db, r) := Session.Appended(hash, old(store.db), reqID, entry, seconds, fault);
              View() == old(View()).(db := db) && reply == r
    {
      hide Apply, Outcome, ReturnedKey;
      var e := if entry.Some? then entry.value else EMPTY_MSG;
      var uri := FeedURI(e);
      if uri == "" {
        reply := ErrorResponse(reqID, InvalidFeedURI);
        return;
      }
      if |e.body| == 0 || |e.body| > Session.MAX_BODY_SIZE {
        reply := ErrorResponse(reqID, InvalidRequest);
        return;
      }
      var channel := store.ChannelFor(hash(uri));
      var key, err := channel.Append(e, seconds, fault);
      if err.Some? {
        reply := ErrorResponse(reqID, DatabaseError);
        return;
      }
      reply := EMPTY_MSG.(op := ReqComplete, reqID := reqID, header := Some(EntryHeader(key, [], [], "", "")));
    }

    /** The switch over the request's operation. */
    method Handle(req: Session.FeedReq, seconds: Seconds, fault: Fault) returns (reply: Msg)
      requires Valid()
      modifies this, created, store`channels, store`db
      ensures Valid() && (View(), reply) == Session.Handled(hash, old(View()), req, seconds, fault)
      ensures old(created) <= created && fresh(created[|old(created)|..])
    {
      assert View().db == store.db;
      hide View, Session.Opened, Session.Cancelled, Session.Appended;
      match req {
        case ChannelGenesis(reqID, entry) => reply := New(reqID, entry, seconds, fault);
        case OpenFeed(reqID, open) => reply := Open(reqID, open, seconds, fault);
        case CancelReq(reqID) => reply := Close(reqID, seconds, fault);
        case AppendEntry(reqID, entry) => reply := Append(reqID, entry, seconds, fault);
        case UnsupportedOp(reqID) => reply := ErrorResponse(reqID, InvalidRequest);
      }
    }

    /** Genesis entries are appended like any other. */
    method New(reqID: ReqID, entry: Option<Msg>, seconds: Seconds, fault: Fault) returns (reply: Msg)
      requires Valid()
      modifies store`channels, store`db
      ensures Valid()
      ensures var (db, r) := Session.Appended(hash, old(store.db), reqID, entry, seconds, fault);
              View() == old(View()).(db := db) && reply == r
    {
      reply := Append(reqID, entry, seconds, fault);
    }

    /** A received request: handled, noted, and its reply made ready. */
    method Receive(req: Session.FeedReq, seconds: Seconds, fault: Fault)
      requires Valid() && status == Session.Serving && pending.None?
      modifies this, created, store`channels, store`db
      ensures Valid()
      ensures View() == Session.Step(hash, old(View()), Session.Receive(req, seconds, fault))
      ensures old(created) <= created && fresh(created[|old(created)|..])
    {
      assert View().status == status && View().pending == pending && View().handled == handled;
      hide Session.Handled;
      var reply := Handle(req, seconds, fault);
      Note(req, reply);
      Session.HandlerKeepsNotes(hash, old(View()), req, seconds, fault);
    }

    method Note(req: Session.FeedReq, reply: Msg)
      requires Valid()
      modifies `handled, `pending
      ensures Valid()
      ensures View() == old(View()).(handled := old(View()).handled + [req],
                                     pending := if old(View()).status == Session.Crashed then None else Some(reply))
    {
      handled := handled + [req];
      pending := if status == Session.Crashed then None else Some(reply);
    }

    method Publish(c: ChannelID, msg: Msg)
      requires Valid()
      modifies `sent
      ensures Valid() && View() == Session.Step(hash, old(View()), Session.Publish(c, msg))
    {
      assert c in readers ==> Streams()[readers[c].serial].id == readers[c].id;
      if c in readers {
        sent := sent + [Session.Feed(c, msg.(reqID := readers[c].id))];
      }
    }

    method ExitReader(c: ChannelID)
      requires Valid()
      modifies `readers
      ensures Valid() && View() == Session.Step(hash, old(View()), Session.ReaderExit(c))
    {
      readers := readers - {c};
      assert ReaderTable() == old(ReaderTable()) - {c};
    }

    method SendReply()
      requires Valid()
      modifies `pending, `sent
      ensures Valid() && View() == Session.Step(hash, old(View()), Session.SendReply)
    {
      if pending.Some? {
        sent := sent + [Session.Reply(pending.value)];
        pending := None;
      }
    }

    /** What goes on between requests: the reply is sent, readers publish through the connection
        and exit, others write, the connection ends. */
    method Meanwhile(e: Session.Event)
      requires Valid() && (e.Receive? ==> status != Session.Serving || pending.Some?)
      modifies `pending, `sent, `readers, `status, store`db
      ensures Valid() && View() == Session.Step(hash, old(View()), e)
    {
      hide Apply, Outcome;
      match e {
        case Receive(_, _, _) =>
        case SendReply => SendReply();
        case Publish(c, msg) => Publish(c, msg);
        case ReaderExit(c) => ExitReader(c);
        case OtherWrite(op) => store.db := Apply(store.db, op);
        case Disconnect => status := if status == Session.Crashed then Session.Crashed else Session.Closed;
      }
    }

    /** The request loop, run against everything that happens around it: receive, handle, reply,
        until the connection ends, the server breaks down or `script` is used up. */
    method VaultSession(script: seq<Session.Event>) returns (n: nat)
      requires Valid() && status == Session.Serving && pending.None? && created == []
      modifies this, store`channels, store`db
      ensures n <= |script| && (n == |script| || status != Session.Serving)
      ensures Valid() && View() == Session.Run(hash, old(View()), script[..n])
    {
      hide *;
      n := 0;
      Session.RunStarts(hash, View(), script);
      while n < |script| && status == Session.Serving
        invariant n <= |script| && Valid() && View() == Session.Run(hash, old(View()), script[..n])
        invariant fresh(created)
        decreases |script| - n
      {
        Session.RunSteps(hash, old(View()), script, n);
        if script[n].Receive? && pending.None? {
          ghost var before := created;
          Receive(script[n].req, script[n].seconds, script[n].fault);
          assert created == before + created[|before|..];
        } else {
          Meanwhile(script[n]);
        }
        n := n + 1;
      }
    }
  }

  /** Reads the flags and the limit off the request: nothing for a request without streaming;
      otherwise a positive limit, the seek entry unless the mode says where to start by itself,
      and exactly the flags that the mode and the request stand for. */
  method NewStreamOpts(req: Session.OpenReq) returns (opts: Option<StreamOpts>)
    ensures opts == Session.Translated(req)
    ensures opts.None? <==> req.mode == Session.DontStream
    ensures opts.Some? ==>
              var o := opts.value;
              && o.max > 0 && (req.maxEntries > 0 ==> o.max == req.maxEntries)
              && (req.maxEntries <= 0 ==> o.max == TAIL)
              && o.seek == (if req.mode in {Session.FromGenesis, Session.AfterHead, Session.FromIndex} then []
                            else req.seekEntryID)
              && (o.KeysOnly() <==> req.idsOnly)
              && (o.SkipFirst() <==> req.mode in {Session.AfterEntry, Session.AfterHead})
              && (o.FromHead() <==> req.mode == Session.AfterHead)
              && (o.FromGenesis() <==> req.mode == Session.FromGenesis)
              && (o.FromIndex() <==> req.mode == Session.FromIndex)
  {
    var start := req.seekEntryID;
    var skipFirst, idsOnly, fromHead, fromGenesis, fromIndex := OPT_NONE, OPT_NONE, OPT_NONE, OPT_NONE, OPT_NONE;
    match req.mode {
      case DontStream => return None;
      case FromGenesis =>
        start := [];
        fromGenesis := OPT_FROM_GENESIS;
      case AtEntry =>
      case AfterEntry =>
        skipFirst := OPT_SKIP_FIRST;
      case AfterHead =>
        skipFirst := OPT_SKIP_FIRST;
        fromHead := OPT_FROM_HEAD;
        start := [];
      case FromIndex =>
        start := [];
        fromIndex := OPT_FROM_INDEX;
      case UnknownMode =>
    }
    if req.idsOnly {
      idsOnly := OPT_KEYS_ONLY;
    }
    var max: U64 := 0;
    if req.maxEntries >= 0 {
      max := req.maxEntries;
    }
    if max <= 0 {
      max := TAIL;
    }
    opts := Some(StreamOpts(start, max, idsOnly | skipFirst | fromHead | fromGenesis | fromIndex));
  }
}

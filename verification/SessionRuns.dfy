/** What clients can rely on over whole sessions. */
module SessionRuns {
  import opened Database
  import opened Keys
  import opened Messages
  import opened Session
  import opened StreamOptions
  import opened Transactions
  import Bookmarks
  import Registry

  // ---------- Replies ----------

  /** The replies among the messages sent, in order. */
  function Replies(sent: seq<Sent>): seq<Msg> {
    if sent == [] then []
    else
      var n := |sent| - 1;
      Replies(sent[..n]) + if sent[n].Reply? then [sent[n].msg] else []
  }

  /** The replies sent and the one under way. */
  function AllReplies(s: Session): seq<Msg> {
    Replies(s.sent) + if s.pending.Some? then [s.pending.value] else []
  }

  /** What the reply to a request looks like, told from the request alone: its ID always; the
      error code of a malformed request; otherwise completion with the status "working" for an
      open, a plain discard for a cancellation, and for an entry either a database error or
      completion with a key. */
  predicate Answers(reply: Msg, req: FeedReq) {
    && reply.reqID == req.reqID
    && match req
       case OpenFeed(_, open) =>
         if open.None? then reply.op == ReqDiscarded && reply.err == Some(InvalidRequest)
         else if open.value.feedURI == "" then reply.op == ReqDiscarded && reply.err == Some(InvalidFeedURI)
         else reply.op == ReqComplete && reply.status == Some(Working) && reply.err.None?
       case CancelReq(_) => reply.op == ReqDiscarded && reply.err.None?
       case UnsupportedOp(_) => reply.op == ReqDiscarded && reply.err == Some(InvalidRequest)
       case _ =>
         if req.entry.None? || FeedURI(req.entry.value) == ""
         then reply.op == ReqDiscarded && reply.err == Some(InvalidFeedURI)
         else if |req.entry.value.body| == 0 || |req.entry.value.body| > MAX_BODY_SIZE
         then reply.op == ReqDiscarded && reply.err == Some(InvalidRequest)
         else (reply.op == ReqDiscarded && reply.err == Some(DatabaseError))
              || (reply.op == ReqComplete && reply.err.None? && EntryID(reply).Some?)
  }

  ghost predicate RepliesOK(s: Session) {
    s.status != Crashed ==>
      && |AllReplies(s)| == |s.handled|
      && forall i :: 0 <= i < |s.handled| ==> Answers(AllReplies(s)[i], s.handled[i])
  }

  lemma HandlerAnswers(hash: string -> ChannelID, s: Session, req: FeedReq, seconds: Seconds, fault: Fault)
    ensures Answers(Handled(hash, s, req, seconds, fault).1, req)
  {
  }

  lemma ReceiveKeepsReplies(hash: string -> ChannelID, s: Session, req: FeedReq, seconds: Seconds, fault: Fault)
    requires RepliesOK(s) && s.status == Serving && s.pending.None?
    ensures RepliesOK(Step(hash, s, Receive(req, seconds, fault)))
  {
    HandlerAnswers(hash, s, req, seconds, fault);
    HandlerKeepsNotes(hash, s, req, seconds, fault);
    hide Answers, Handled;
    var s' := Step(hash, s, Receive(req, seconds, fault));
    if s'.status != Crashed {
      assert AllReplies(s') == AllReplies(s) + [s'.pending.value];
    }
  }

  lemma SendingKeepsReplies(hash: string -> ChannelID, s: Session, e: Event)
    requires RepliesOK(s) && (e.SendReply? || e.Publish?)
    ensures RepliesOK(Step(hash, s, e))
  {
    hide Answers;
    var s' := Step(hash, s, e);
    if s'.sent != s.sent {
      assert s'.sent[..|s.sent|] == s.sent;
      assert AllReplies(s') == AllReplies(s);
    }
  }

  lemma StepKeepsReplies(hash: string -> ChannelID, s: Session, e: Event)
    requires RepliesOK(s)
    ensures RepliesOK(Step(hash, s, e))
  {
    hide Answers, Handled;
    match e
    case Receive(req, seconds, fault) =>
      if s.status == Serving && s.pending.None? {
        hide Step;
        ReceiveKeepsReplies(hash, s, req, seconds, fault);
      }
    case SendReply => hide Step; SendingKeepsReplies(hash, s, e);
    case Publish(_, _) => hide Step; SendingKeepsReplies(hash, s, e);
    case _ =>
  }

  /** As long as the session has not crashed, there is exactly one reply for each request, in the
      order of the requests and however much the feeds publish in between, and each answers its
      own request. */
  lemma {:induction false} RepliesAnswerRequests(hash: string -> ChannelID, db: Snapshot, es: seq<Event>)
    ensures RepliesOK(Run(hash, NewSession(db), es))
  {
    if es == [] {
    } else {
      var n := |es| - 1;
      hide Step, RepliesOK;
      RepliesAnswerRequests(hash, db, es[..n]);
      StepKeepsReplies(hash, Run(hash, NewSession(db), es[..n]), es[n]);
    }
  }

  // ---------- Streams and feeds ----------

  /** The request was an accepted open of channel `c` under the ID `k`. */
  predicate IsOpenOf(hash: string -> ChannelID, req: FeedReq, k: ReqID, c: ChannelID) {
    && req.OpenFeed? && req.reqID == k && req.open.Some? && req.open.value.feedURI != ""
    && hash(req.open.value.feedURI) == c
  }

  ghost predicate WasOpened(hash: string -> ChannelID, s: Session, k: ReqID, c: ChannelID) {
    exists i :: 0 <= i < |s.handled| && IsOpenOf(hash, s.handled[i], k, c)
  }

  ghost predicate StreamsOK(hash: string -> ChannelID, s: Session) {
    && (forall n :: 0 <= n < |s.created| ==> WasOpened(hash, s, s.created[n].id, s.created[n].channel))
    && (forall k :: k in s.streams ==> s.streams[k] < |s.created| && s.created[s.streams[k]].id == k)
    && (forall c :: c in s.readers ==> s.readers[c] < |s.created| && s.created[s.readers[c]].channel == c)
    && (forall i :: 0 <= i < |s.sent| && s.sent[i].Feed? ==>
          WasOpened(hash, s, s.sent[i].msg.reqID, s.sent[i].channel))
  }

  lemma MoreHandledKeepsOpened(hash: string -> ChannelID, s: Session, s': Session)
    requires s.handled <= s'.handled
    ensures forall k, c :: WasOpened(hash, s, k, c) ==> WasOpened(hash, s', k, c)
  {
    forall k, c | WasOpened(hash, s, k, c) ensures WasOpened(hash, s', k, c) {
      var i :| 0 <= i < |s.handled| && IsOpenOf(hash, s.handled[i], k, c);
      assert IsOpenOf(hash, s'.handled[i], k, c);
    }
  }

  lemma OpenKeepsStreams(hash: string -> ChannelID, s: Session, k: ReqID, c: ChannelID, opts: Option<StreamOpts>)
    requires StreamsOK(hash, s) && WasOpened(hash, s, k, c)
    ensures StreamsOK(hash, Opened(s, k, c, opts))
  {
    hide IsOpenOf;
    var s' := Opened(s, k, c, opts);
    MoreHandledKeepsOpened(hash, s, s');
    hide WasOpened;
  }

  lemma CancelKeepsStreams(hash: string -> ChannelID, s: Session, k: ReqID)
    requires StreamsOK(hash, s)
    ensures StreamsOK(hash, Cancelled(s, k))
  {
    hide IsOpenOf;
    MoreHandledKeepsOpened(hash, s, Cancelled(s, k));
    hide WasOpened;
  }

  /** Taking note of one more request, of a reply, or of a new database changes no stream. */
  lemma NotingKeepsStreams(hash: string -> ChannelID, s: Session, s': Session)
    requires StreamsOK(hash, s) && s.handled <= s'.handled
    requires s'.created == s.created && s'.streams == s.streams && s'.readers.Items <= s.readers.Items
    requires forall i :: 0 <= i < |s'.sent| && s'.sent[i].Feed? ==> s'.sent[i] in s.sent
    ensures StreamsOK(hash, s')
  {
    hide IsOpenOf;
    MoreHandledKeepsOpened(hash, s, s');
    hide WasOpened;
    forall c | c in s'.readers ensures c in s.readers && s.readers[c] == s'.readers[c] {
      assert (c, s'.readers[c]) in s'.readers.Items;
    }
  }

  lemma PublishKeepsStreams(hash: string -> ChannelID, s: Session, c: ChannelID, msg: Msg)
    requires StreamsOK(hash, s)
    ensures StreamsOK(hash, Step(hash, s, Publish(c, msg)))
  {
    hide IsOpenOf;
    MoreHandledKeepsOpened(hash, s, Step(hash, s, Publish(c, msg)));
    hide WasOpened;
  }

  lemma ReceiveKeepsStreams(hash: string -> ChannelID, s: Session, req: FeedReq, seconds: Seconds, fault: Fault)
    requires StreamsOK(hash, s) && s.status == Serving && s.pending.None?
    ensures StreamsOK(hash, Step(hash, s, Receive(req, seconds, fault)))
  {
    hide StreamsOK, Appended, Translated;
    var noted := s.(handled := s.handled + [req]);
    NotingKeepsStreams(hash, s, noted);
    var s' := Step(hash, s, Receive(req, seconds, fault));
    match req
    case OpenFeed(k, open) =>
      if open.Some? && open.value.feedURI != "" {
        var c := hash(open.value.feedURI);
        assert IsOpenOf(hash, noted.handled[|s.handled|], k, c) && WasOpened(hash, noted, k, c);
        OpenKeepsStreams(hash, noted, k, c, Translated(open.value));
        OnlyNotesReply(hash, Opened(noted, k, c, Translated(open.value)), s');
      } else {
        OnlyNotesReply(hash, noted, s');
      }
    case CancelReq(k) =>
      CancelKeepsStreams(hash, noted, k);
      OnlyNotesReply(hash, Cancelled(noted, k), s');
    case _ =>
      hide Opened, Cancelled;
      OnlyNotesReply(hash, noted, s');
  }

  lemma OnlyNotesReply(hash: string -> ChannelID, s: Session, s': Session)
    requires StreamsOK(hash, s) && s' == s.(pending := s'.pending, db := s'.db)
    ensures StreamsOK(hash, s')
  {
    NotingKeepsStreams(hash, s, s');
  }

  lemma StepKeepsStreams(hash: string -> ChannelID, s: Session, e: Event)
    requires StreamsOK(hash, s)
    ensures StreamsOK(hash, Step(hash, s, e))
  {
    hide StreamsOK;
    match e
    case Receive(req, seconds, fault) =>
      if s.status == Serving && s.pending.None? {
        hide Step;
        ReceiveKeepsStreams(hash, s, req, seconds, fault);
      }
    case Publish(c, msg) => hide Step; PublishKeepsStreams(hash, s, c, msg);
    case _ => NotingKeepsStreams(hash, s, Step(hash, s, e));
  }

  /** In every session: `streams[k]` is a stream with ID `k`, each reader publishes to a stream of
      its own channel, and every feed message ever sent carries the ID of an earlier accepted
      open on this connection for the channel that its reader reads. */
  lemma {:induction false} FeedMessagesBelongToOpens(hash: string -> ChannelID, db: Snapshot, es: seq<Event>)
    ensures StreamsOK(hash, Run(hash, NewSession(db), es))
  {
    if es == [] {
    } else {
      var n := |es| - 1;
      FeedMessagesBelongToOpens(hash, db, es[..n]);
      hide Step, StreamsOK;
      StepKeepsStreams(hash, Run(hash, NewSession(db), es[..n]), es[n]);
    }
  }

  /** Cancelling twice is cancelling once: the second request changes nothing and is answered the
      same way, and the stream is gone after the first. */
  lemma CancelIsIdempotent(hash: string -> ChannelID, s: Session, k: ReqID, seconds: Seconds, fault: Fault)
    requires StreamsOK(hash, s)
    ensures var (s1, r1) := Handled(hash, s, CancelReq(k), seconds, fault);
            var (s2, r2) := Handled(hash, s1, CancelReq(k), seconds, fault);
            s2 == s1 && r2 == r1 && k !in s1.streams
  {
  }

  // ---------- The channel's table of readers ----------

  /** The connection `me` has a reader on channel `c` in the session and in the channel's table, or
      in neither. */
  predicate SameReader(s: Session, c: ChannelID, t: Registry.Table, me: Registry.UUID) {
    c in s.readers <==> me in t.subscribers
  }

  /** What a step of the connection's session does to the table of channel `c`. */
  function OnTable(hash: string -> ChannelID, s: Session, e: Event, t: Registry.Table, c: ChannelID,
                   me: Registry.UUID): Registry.Table
  {
    match e
    case Receive(req, _, _) =>
      if s.status == Serving && s.pending.None? && IsOpenOf(hash, req, req.reqID, c)
         && (c in s.readers || req.open.value.mode != DontStream)
      then Registry.Subscribed(t, me) else t
    case ReaderExit(d) =>
      if d == c && me in t.subscribers then Registry.Unsubscribed(t, t.subscribers[me]) else t
    case _ => t
  }

  /** The table of channel `c` after the connection's session, with a step of other connections'
      readers, if any, before each event. */
  function TableAfter(hash: string -> ChannelID, s: Session, es: seq<Event>, others: seq<Option<Registry.Event>>,
                      c: ChannelID, me: Registry.UUID): Registry.Table
    requires |others| == |es|
  {
    if es == [] then Registry.Table(map[], [], {})
    else
      var n := |es| - 1;
      var t := TableAfter(hash, s, es[..n], others[..n], c, me);
      var t' := if others[n].Some? then Registry.Step(t, others[n].value) else t;
      OnTable(hash, Run(hash, s, es[..n]), es[n], t', c, me)
  }

  /** None of the others' events is about the connection's own reader. */
  predicate ByOthers(hash: string -> ChannelID, s: Session, es: seq<Event>, others: seq<Option<Registry.Event>>,
                     c: ChannelID, me: Registry.UUID)
    requires |others| == |es|
  {
    forall i :: 0 <= i < |others| && others[i].Some? ==>
      match others[i].value
      case Subscribe(id) => id != me
      case Unsubscribe(reader) =>
        var t := TableAfter(hash, s, es[..i], others[..i], c, me);
        reader < |t.targets| ==> t.targets[reader] != me
  }

  lemma OthersKeepReader(s: Session, c: ChannelID, t: Registry.Table, e: Registry.Event, me: Registry.UUID)
    requires SameReader(s, c, t, me) && Registry.Exact(t)
    requires match e case Subscribe(id) => id != me case Unsubscribe(n) => n < |t.targets| ==> t.targets[n] != me
    ensures SameReader(s, c, Registry.Step(t, e), me) && Registry.Exact(Registry.Step(t, e))
  {
    match e
    case Subscribe(id) => Registry.SubscribedStaysExact(t, id);
    case Unsubscribe(reader) => Registry.UnsubscribedStaysExact(t, reader);
  }

  /** A step of the session starts, resets or ends the connection's reader exactly as the table
      has it, and touches the entry of no other connection. */
  lemma {:induction false} StepActsOnTable(hash: string -> ChannelID, s: Session, e: Event, t: Registry.Table, c: ChannelID,
                        me: Registry.UUID)
    requires SameReader(s, c, t, me) && Registry.Exact(t)
    ensures var s', t' := Step(hash, s, e), OnTable(hash, s, e, t, c, me);
            && SameReader(s', c, t', me) && Registry.Exact(t')
            && (c in s'.readers && c !in s.readers <==> t'.targets == t.targets + [me])
            && t'.subscribers - {me} == t.subscribers - {me}
  {
    hide Appended, Translated, Registry.Exact;
    match e
    case Receive(req, _, _) =>
      Registry.SubscribedStaysExact(t, me);
      if req.OpenFeed? && req.open.Some? {
        NoOptionsExactly(req.open.value);
      }
    case ReaderExit(_) =>
      if me in t.subscribers {
        Registry.UnsubscribedStaysExact(t, t.subscribers[me]);
        OwnTarget(t, me);
      }
    case _ =>
  }

  lemma OwnTarget(t: Registry.Table, me: Registry.UUID)
    requires Registry.Exact(t) && me in t.subscribers
    ensures var n := t.subscribers[me]; n in t.running && n < |t.targets| && t.targets[n] == me
  {
  }

  /** Over whole sessions, however other connections come and go on the channel, the session's
      readers are the connection's part of the channel's table. */
  lemma {:induction false} ReadersAreTableEntries(hash: string -> ChannelID, db: Snapshot, es: seq<Event>,
                                                  others: seq<Option<Registry.Event>>, c: ChannelID, me: Registry.UUID)
    requires |others| == |es| && ByOthers(hash, NewSession(db), es, others, c, me)
    ensures SameReader(Run(hash, NewSession(db), es), c, TableAfter(hash, NewSession(db), es, others, c, me), me)
    ensures Registry.Exact(TableAfter(hash, NewSession(db), es, others, c, me))
  {
    if es == [] {
    } else {
      var n, start := |es| - 1, NewSession(db);
      forall i | 0 <= i <= n ensures es[..n][..i] == es[..i] && others[..n][..i] == others[..i] {}
      assert ByOthers(hash, start, es[..n], others[..n], c, me);
      hide Step, OnTable, Registry.Exact, SameReader;
      ReadersAreTableEntries(hash, db, es[..n], others[..n], c, me);
      var s, t := Run(hash, start, es[..n]), TableAfter(hash, start, es[..n], others[..n], c, me);
      if others[n].Some? {
        OthersKeepReader(s, c, t, others[n].value, me);
        StepActsOnTable(hash, s, es[n], Registry.Step(t, others[n].value), c, me);
      } else {
        StepActsOnTable(hash, s, es[n], t, c, me);
      }
    }
  }

  // ---------- What a cancellation stops ----------

  /** The reader on channel `c` will stop: the context of its stream is cancelled. */
  predicate Stopping(s: Session, c: ChannelID) {
    c in s.readers && s.readers[c] < |s.created| && s.created[s.readers[c]].cancelled
  }

  /** Cancelling `k` stops the reader on `c` exactly when the stream now under `k` is the one that
      reader was started with; it stops no other reader and leaves every other stream alone. */
  lemma CancelStopsExactly(hash: string -> ChannelID, s: Session, k: ReqID, c: ChannelID)
    requires StreamsOK(hash, s) && c in s.readers && !Stopping(s, c)
    ensures Stopping(Cancelled(s, k), c) <==> k in s.streams && s.streams[k] == s.readers[c]
    ensures Cancelled(s, k).readers == s.readers
    ensures forall j :: j in s.streams && j != k ==>
              j in Cancelled(s, k).streams && Cancelled(s, k).streams[j] == s.streams[j]
  {
  }

  /** A second open of a channel does not replace the first: its stream is never the reader's, so
      cancelling it leaves the feed running under the first request's ID. */
  lemma ReopenedStreamDoesNotStop(hash: string -> ChannelID, s: Session, k: ReqID, c: ChannelID, opts: Option<StreamOpts>)
    requires StreamsOK(hash, s) && c in s.readers && !Stopping(s, c)
    ensures var s' := Cancelled(Opened(s, k, c, opts), k);
            && !Stopping(s', c) && s'.readers == s.readers
            && s'.created[s'.readers[c]].id == s.created[s.readers[c]].id
  {
  }

  // ---------- When the server breaks down ----------

  predicate OpensWithoutStreaming(hash: string -> ChannelID, req: FeedReq, c: ChannelID) {
    && req.OpenFeed? && req.open.Some? && req.open.value.feedURI != ""
    && req.open.value.mode == DontStream && hash(req.open.value.feedURI) == c
  }

  /** Opening without streaming crashes the server unless this connection already reads the
      channel; nothing else a client can send does. */
  lemma CrashesExactly(hash: string -> ChannelID, s: Session, req: FeedReq, seconds: Seconds, fault: Fault)
    requires s.status == Serving && s.pending.None?
    ensures Step(hash, s, Receive(req, seconds, fault)).status == Crashed <==>
              exists c :: OpensWithoutStreaming(hash, req, c) && c !in s.readers
  {
  }

  /** On a channel that the connection does read it is no less harmful: that request, and no other,
      hands the reader a nil reset. */
  lemma {:induction false} NilResetExactly(hash: string -> ChannelID, s: Session, req: FeedReq, seconds: Seconds, fault: Fault,
                        c: ChannelID)
    requires s.status == Serving && s.pending.None?
    ensures var resets := Step(hash, s, Receive(req, seconds, fault)).resets;
            && s.resets <= resets && |resets| <= |s.resets| + 1
            && (resets == s.resets + [(c, None)] <==> OpensWithoutStreaming(hash, req, c) && c in s.readers)
  {
    hide Appended, Translated;
    var resets := Step(hash, s, Receive(req, seconds, fault)).resets;
    if resets != s.resets {
      var d, opts := hash(req.open.value.feedURI), Translated(req.open.value);
      assert resets == s.resets + [(d, opts)] && d in s.readers;
      assert resets[|s.resets|] == (d, opts);
      NoOptionsExactly(req.open.value);
    } else {
      assert |resets| != |s.resets + [(c, None)]|;
    }
  }

  lemma NoOptionsExactly(req: OpenReq)
    ensures Translated(req).None? <==> req.mode == DontStream
  {
  }

  /** Every reset handed to a reader is what some request of this connection that opened the channel
      asked for. */
  ghost predicate ResetsAsked(hash: string -> ChannelID, s: Session) {
    forall i :: 0 <= i < |s.resets| ==> AskedReset(hash, s.handled, s.resets[i])
  }

  ghost predicate AskedReset(hash: string -> ChannelID, handled: seq<FeedReq>, reset: (ChannelID, Option<StreamOpts>)) {
    exists j :: 0 <= j < |handled| && IsOpenOf(hash, handled[j], handled[j].reqID, reset.0)
                && Translated(handled[j].open.value) == reset.1
  }

  /** A request hands on what it asks for to the reader of the channel that it opens, if there is
      one. */
  lemma ReceiveResets(hash: string -> ChannelID, s: Session, req: FeedReq, seconds: Seconds, fault: Fault)
    requires s.status == Serving && s.pending.None?
    ensures var s' := Step(hash, s, Receive(req, seconds, fault));
            && s'.handled == s.handled + [req]
            && if req.OpenFeed? && req.open.Some? && req.open.value.feedURI != "" && hash(req.open.value.feedURI) in s.readers
               then s'.resets == s.resets + [(hash(req.open.value.feedURI), Translated(req.open.value))]
               else s'.resets == s.resets
  {
    hide Appended, Translated;
    HandlerKeepsNotes(hash, s, req, seconds, fault);
  }

  lemma OthersReset(hash: string -> ChannelID, s: Session, e: Event)
    requires !(e.Receive? && s.status == Serving && s.pending.None?)
    ensures Step(hash, s, e).resets == s.resets && Step(hash, s, e).handled == s.handled
  {
    hide Handled, Apply, Outcome;
  }

  lemma StepKeepsResets(hash: string -> ChannelID, s: Session, e: Event)
    requires ResetsAsked(hash, s)
    ensures ResetsAsked(hash, Step(hash, s, e)) && s.resets <= Step(hash, s, e).resets
  {
    hide Step, IsOpenOf, Translated;
    var s' := Step(hash, s, e);
    if e.Receive? && s.status == Serving && s.pending.None? {
      ReceiveResets(hash, s, e.req, e.seconds, e.fault);
      forall i | 0 <= i < |s'.resets| ensures AskedReset(hash, s'.handled, s'.resets[i]) {
        if i < |s.resets| {
          AskedStays(hash, s.handled, e.req, s.resets[i]);
        } else {
          OpensItself(hash, e.req);
          assert s'.handled[|s.handled|] == e.req;
        }
      }
    } else {
      OthersReset(hash, s, e);
    }
  }

  lemma AskedStays(hash: string -> ChannelID, handled: seq<FeedReq>, req: FeedReq,
                   reset: (ChannelID, Option<StreamOpts>))
    requires AskedReset(hash, handled, reset)
    ensures AskedReset(hash, handled + [req], reset)
  {
    var j :| 0 <= j < |handled| && IsOpenOf(hash, handled[j], handled[j].reqID, reset.0)
             && Translated(handled[j].open.value) == reset.1;
    assert (handled + [req])[j] == handled[j];
  }

  lemma OpensItself(hash: string -> ChannelID, req: FeedReq)
    requires req.OpenFeed? && req.open.Some? && req.open.value.feedURI != ""
    ensures IsOpenOf(hash, req, req.reqID, hash(req.open.value.feedURI))
  {
  }

  // ---------- Replies leave ----------

  /** Sending the reply leaves nothing under way: then every request handled so far has been answered
      by a message that was sent, the last one by the last message. */
  lemma {:induction false} SentReplyAnswers(hash: string -> ChannelID, db: Snapshot, es: seq<Event>)
    requires Run(hash, NewSession(db), es).status != Crashed
    ensures var s, s' := Run(hash, NewSession(db), es), Step(hash, Run(hash, NewSession(db), es), SendReply);
            && s'.pending.None? && s'.handled == s.handled
            && |Replies(s'.sent)| == |s'.handled|
            && (forall i :: 0 <= i < |s'.handled| ==> Answers(Replies(s'.sent)[i], s'.handled[i]))
            && (s.pending.Some? ==> s'.sent == s.sent + [Reply(s.pending.value)])
            && (s.pending.None? ==> s'.sent == s.sent)
  {
    RepliesAnswerRequests(hash, db, es);
    var s := Run(hash, NewSession(db), es);
    hide Run, Answers;
    SendingKeepsReplies(hash, s, SendReply);
    assert AllReplies(Step(hash, s, SendReply)) == Replies(Step(hash, s, SendReply).sent);
  }

  /** After the connection has ended no request is handled any more. */
  lemma {:induction false} NothingAfterEnd(hash: string -> ChannelID, s: Session, es: seq<Event>)
    ensures var s', s'' := Step(hash, s, Disconnect), Run(hash, Step(hash, s, Disconnect), es);
            s''.status != Serving && s''.handled == s'.handled && s''.created == s'.created && s''.streams == s'.streams
  {
    if es == [] {
    } else {
      hide Step;
      NothingAfterEnd(hash, s, es[..|es| - 1]);
      EndedStays(hash, Run(hash, Step(hash, s, Disconnect), es[..|es| - 1]), es[|es| - 1]);
    }
    DisconnectEnds(hash, s);
  }

  lemma DisconnectEnds(hash: string -> ChannelID, s: Session)
    ensures Step(hash, s, Disconnect).status != Serving
  {
  }

  lemma EndedStays(hash: string -> ChannelID, s: Session, e: Event)
    requires s.status != Serving
    ensures var s' := Step(hash, s, e);
            s'.status != Serving && s'.handled == s.handled && s'.created == s.created && s'.streams == s.streams
  {
    hide Handled, Apply, Outcome;
  }

  // ---------- What requests achieve ----------

  /** A request that is answered with an error has changed nothing. */
  lemma RefusalsChangeNothing(hash: string -> ChannelID, s: Session, req: FeedReq, seconds: Seconds, fault: Fault)
    requires Handled(hash, s, req, seconds, fault).1.err.Some?
    ensures Handled(hash, s, req, seconds, fault).0 == s
  {
  }

  /** An append or genesis request that is not refused is answered with the entry's arrival key, the
      bookmark, in the channel of the entry's URI; under that key the database then delivers the very
      entry, and readers of that URI find it under its ID. */
  lemma {:induction false} AppendIsAnsweredWithBookmark(hash: string -> ChannelID, s: Session, req: FeedReq,
                                                       seconds: Seconds, fault: Fault)
    requires (req.AppendEntry? || req.ChannelGenesis?) && Handled(hash, s, req, seconds, fault).1.err.None?
    ensures req.entry.Some? && EntryID(req.entry.value).Some?
    ensures var (s', reply) := Handled(hash, s, req, seconds, fault);
            var e, c := req.entry.value, hash(FeedURI(req.entry.value));
            && EntryID(reply) == Some(ArrivalKey(c, EntryID(e).value, seconds))
            && Bookmarks.Delivers(s'.db, c, EntryID(reply).value, e)
            && EntryKey(c, EntryID(e).value) !in s.db && EntryKey(c, EntryID(e).value) in s'.db
            && forall k: ReqID, open: OpenReq :: open.feedURI == FeedURI(e) ==>
                 IsOpenOf(hash, OpenFeed(k, Some(open)), k, c)
  {
    hide Apply, Outcome, EntryKey, ArrivalKey, EntryKeyFromIndex, Bookmarks.Delivers;
    AppendSucceeds(hash, s, req, seconds, fault);
    AppendDelivers(s.db, hash(FeedURI(req.entry.value)), req.entry.value, seconds, fault);
  }

  lemma AppendSucceeds(hash: string -> ChannelID, s: Session, req: FeedReq, seconds: Seconds, fault: Fault)
    requires (req.AppendEntry? || req.ChannelGenesis?) && Handled(hash, s, req, seconds, fault).1.err.None?
    ensures req.entry.Some?
    ensures var (s', reply) := Handled(hash, s, req, seconds, fault);
            var op := Op.Append(hash(FeedURI(req.entry.value)), req.entry.value, seconds, fault);
            Outcome(s.db, op).None? && s'.db == Apply(s.db, op) && EntryID(reply) == ReturnedKey(op)
  {
    hide Apply, Outcome, ReturnedKey;
  }

  lemma AppendDelivers(db: Snapshot, c: ChannelID, e: Msg, seconds: Seconds, fault: Fault)
    requires Outcome(db, Op.Append(c, e, seconds, fault)).None?
    ensures EntryID(e).Some? && ReturnedKey(Op.Append(c, e, seconds, fault)) == Some(ArrivalKey(c, EntryID(e).value, seconds))
    ensures var db' := Apply(db, Op.Append(c, e, seconds, fault));
            && Bookmarks.Delivers(db', c, ArrivalKey(c, EntryID(e).value, seconds), e)
            && EntryKey(c, EntryID(e).value) !in db && EntryKey(c, EntryID(e).value) in db'
  {
    IndexRoundTrip(c, EntryID(e).value, seconds);
    KeyspacesPartition(ArrivalKey(c, EntryID(e).value, seconds));
    hide EntryKey, ArrivalKey, EntryKeyFromIndex;
  }

  /** An accepted open puts its stream under its ID, so a cancellation of that ID before any other
      request under it stops the reader that the open started. */
  lemma OpenCanBeCancelled(hash: string -> ChannelID, s: Session, k: ReqID, c: ChannelID, opts: StreamOpts)
    requires c !in s.readers
    ensures var s' := Opened(s, k, c, Some(opts));
            && c in s'.readers && !Stopping(s', c) && k in s'.streams && s'.streams[k] == s'.readers[c]
            && Stopping(Cancelled(s', k), c)
  {
  }
}

/** What a client hears under one request ID: the guarantees of the reader, carried over to the
    messages of a stream in a running vault. */
module Feeds {
  import opened Database
  import opened Keys
  import opened Messages
  import opened StreamOptions
  import opened Transactions
  import opened Vault
  import opened VaultRuns
  import FeedStarts
  import LiveFeed

  // ---------- The messages of one stream ----------

  /** The messages that came from stream `n`, in the order of sending. */
  function Heard(sent: seq<Session.Sent>, sources: seq<Option<nat>>, n: nat): seq<Msg>
    requires |sources| == |sent|
  {
    if sent == [] then []
    else
      var j := |sent| - 1;
      Heard(sent[..j], sources[..j], n) + if sources[j] == Some(n) then [sent[j].msg] else []
  }

  function Stamped(out: seq<Msg>, id: ReqID): seq<Msg> {
    seq(|out|, i requires 0 <= i < |out| => out[i].(reqID := id))
  }

  ghost predicate SourcesOK(v: State) {
    && |v.sources| == |v.s.sent|
    && forall j :: 0 <= j < |v.sources| && v.sources[j].Some? ==> v.sources[j].value < |v.s.created|
  }

  /** The client hears of each reader's stream exactly what that reader has published. */
  ghost predicate HeardOK(v: State) {
    && SourcesOK(v)
    && forall c :: c in v.feeders && c in v.s.readers && v.s.readers[c] < |v.s.created| ==>
         Heard(v.s.sent, v.sources, v.s.readers[c]) == Stamped(v.feeders[c].Sent(), v.s.created[v.s.readers[c]].id)
  }

  lemma HeardSnoc(sent: seq<Session.Sent>, sources: seq<Option<nat>>, m: Session.Sent, source: Option<nat>, n: nat)
    requires |sources| == |sent|
    ensures Heard(sent + [m], sources + [source], n) ==
            Heard(sent, sources, n) + if source == Some(n) then [m.msg] else []
  {
    assert (sent + [m])[..|sent|] == sent && (sources + [source])[..|sent|] == sources;
  }

  /** Nothing has come from a stream that is not there yet. */
  lemma {:induction false} NothingHeard(sent: seq<Session.Sent>, sources: seq<Option<nat>>, n: nat)
    requires |sources| == |sent| && forall j :: 0 <= j < |sources| ==> sources[j] != Some(n)
    ensures Heard(sent, sources, n) == []
  {
    if sent == [] {
    } else {
      NothingHeard(sent[..|sent| - 1], sources[..|sent| - 1], n);
    }
  }

  // ---------- What a step is to one reader ----------

  /** What happens to the reader on channel `c`. */
  function Happens(hash: string -> ChannelID, v: State, e: Event, c: ChannelID): Option<Reader.Event> {
    match e
    case Request(req, seconds, fault) =>
      if v.s.status == Session.Serving && v.s.pending.None? then Effect(hash, v.s, req, seconds, fault, c) else None
    case SendReply => None
    case OtherWrite(op) => Some(Reader.Write(op))
    case Register(d) => if d == c then Some(Reader.Register) else None
    case Broadcast(d, n) => if d == c then Some(Reader.Broadcast(n)) else None
    case Move(d, pick) => if d == c then Some(Reader.Move(pick)) else None
    case Exit(_) => None
    case Disconnect => Some(Reader.Cancel)
  }

  ghost function Next(f: Feeder, c: ChannelID, db: Snapshot, x: Option<Reader.Event>): Feeder {
    if x.None? then f else if x.value.Move? then Moved(f, c, db, x.value.pick) else Touched(f, x.value)
  }

  /** After a step a reader is the one that was there, with what happened to it, or it is new. */
  lemma FeederAfterStep(hash: string -> ChannelID, v: State, e: Event, c: ChannelID)
    requires c in Feeders(hash, v, e)
    ensures c in v.feeders ==> Feeders(hash, v, e)[c] == Next(v.feeders[c], c, v.s.db, Happens(hash, v, e, c))
    ensures c !in v.feeders ==>
              && e.Request? && v.s.status == Session.Serving && v.s.pending.None? && OpenOf(hash, e.req) == Some(c)
              && Session.Translated(e.req.open.value).Some?
              && Feeders(hash, v, e)[c] ==
                 NewFeeder(c, Session.Translated(e.req.open.value).value, v.s.db, c in v.watchers, |v.s.resets|)
  {
    hide NewFeeder, Touched, Moved, Session.Translated, OpenOf;
  }

  /** A reader that stays publishes to the stream that it was started with; a new one to a new one. */
  lemma StreamAfterStep(hash: string -> ChannelID, v: State, e: Event, c: ChannelID)
    requires VaultOK(hash, v) && (e.OtherWrite? ==> Lawful(e.op)) && c in Feeders(hash, v, e)
    ensures var s' := Step(hash, v, e).s;
            && c in s'.readers
            && s'.readers[c] == (if c in v.feeders then v.s.readers[c] else |v.s.created|)
            && s'.readers[c] < |s'.created| && |v.s.created| <= |s'.created|
            && (c in v.feeders ==> s'.readers[c] < |v.s.created|
                                   && s'.created[s'.readers[c]].id == v.s.created[v.s.readers[c]].id)
  {
    hide SessionRuns.StreamsOK, StoreRuns.Consistent, FeederOK, OpenedWith, FeedOK, Session.Step, Moved, Step, Feeders,
         VaultOK, Apply, Outcome;
    VaultHasStreams(hash, v);
    StepKeepsReaders(hash, v, e);
    StepGrows(hash, v, e);
    if e.Request? {
      RequestStreams(hash, v, e.req, e.seconds, e.fault, c);
    } else {
      OtherStreams(hash, v, e);
      FeederAfterStep(hash, v, e, c);
      assert (c, Step(hash, v, e).s.readers[c]) in Step(hash, v, e).s.readers.Items;
    }
  }

  lemma RequestStreams(hash: string -> ChannelID, v: State, req: Session.FeedReq, seconds: Seconds, fault: Fault,
                       c: ChannelID)
    requires SessionRuns.StreamsOK(hash, v.s) && ReadersOK(hash, v.s, v.feeders)
    requires c in Feeders(hash, v, Request(req, seconds, fault))
    ensures var s' := Step(hash, v, Request(req, seconds, fault)).s;
            c in s'.readers ==> s'.readers[c] == if c in v.feeders then v.s.readers[c] else |v.s.created|
  {
    hide Step, Feeders, Session.Step, SessionRuns.StreamsOK, ReaderOK, Session.Translated, OpenOf, Effect;
    FeederAfterStep(hash, v, Request(req, seconds, fault), c);
    RequestIsReceived(hash, v, req, seconds, fault);
    if v.s.status == Session.Serving && v.s.pending.None? {
      ReceiveActs(hash, v.s, req, seconds, fault);
    } else {
      NotReceived(hash, v.s, req, seconds, fault);
    }
  }

  lemma NotReceived(hash: string -> ChannelID, s: Session.Session, req: Session.FeedReq, seconds: Seconds, fault: Fault)
    requires s.status != Session.Serving || s.pending.Some?
    ensures Session.Step(hash, s, Session.Receive(req, seconds, fault)) == s
  {
  }

  lemma RequestIsReceived(hash: string -> ChannelID, v: State, req: Session.FeedReq, seconds: Seconds, fault: Fault)
    ensures Step(hash, v, Request(req, seconds, fault)).s ==
            Session.Step(hash, v.s, Session.Receive(req, seconds, fault))
  {
  }

  lemma OtherStreams(hash: string -> ChannelID, v: State, e: Event)
    requires !e.Request?
    ensures Step(hash, v, e).s.readers.Items <= v.s.readers.Items
  {
    hide Moved, Apply, Outcome;
  }

  // ---------- Every step keeps what is heard ----------

  /** A move sends what the reader publishes by it, from the reader's stream. */
  lemma MoveSends(hash: string -> ChannelID, v: State, c: ChannelID, pick: Reader.Pick)
    requires VaultOK(hash, v) && c in v.feeders
    ensures c in v.s.readers && v.s.readers[c] < |v.s.created|
    ensures var v', n := Step(hash, v, Move(c, pick)), v.s.readers[c];
            var sent, out := v.feeders[c].Sent(), Moved(v.feeders[c], c, v.s.db, pick).Sent();
            if out == sent then v'.s.sent == v.s.sent && v'.sources == v.sources
            else
              && out != [] && out == sent + [out[|out| - 1]]
              && v'.s.sent == v.s.sent + [Session.Feed(c, out[|out| - 1].(reqID := v.s.created[n].id))]
              && v'.sources == v.sources + [Some(n)]
  {
    hide SessionRuns.StreamsOK, StoreRuns.Consistent, FeederOK, OpenedWith, FeedOK, Moved, Feeders;
    assert ReaderOK(hash, v.s, v.feeders[c], c);
    MoveKeepsFeeder(v.feeders[c], c, v.s.db, pick);
  }

  /** Everything else sends at most a reply. */
  lemma OthersSend(hash: string -> ChannelID, v: State, e: Event)
    requires !e.Move? || e.channel !in v.feeders
    ensures var v' := Step(hash, v, e);
            || (v'.s.sent == v.s.sent && v'.sources == v.sources)
            || (|v'.s.sent| == |v.s.sent| + 1 && v'.s.sent[..|v.s.sent|] == v.s.sent && e.SendReply?
                && v'.sources == v.sources + [None])
  {
    hide Session.Handled, Feeders, Moved, Apply, Outcome;
    if e.Request? {
      Session.HandlerKeepsNotes(hash, v.s, e.req, e.seconds, e.fault);
    }
  }

  lemma DifferentStreams(hash: string -> ChannelID, s: Session.Session, c: ChannelID, d: ChannelID)
    requires SessionRuns.StreamsOK(hash, s) && c in s.readers && d in s.readers && c != d
    ensures s.readers[c] != s.readers[d]
  {
    hide SessionRuns.WasOpened;
  }

  lemma ReaderIsHeard(hash: string -> ChannelID, v: State, e: Event, c: ChannelID)
    requires VaultOK(hash, v) && HeardOK(v) && (e.OtherWrite? ==> Lawful(e.op))
    requires c in v.feeders && c in Feeders(hash, v, e) && c in v.s.readers && v.s.readers[c] < |v.s.created|
    requires |Step(hash, v, e).sources| == |Step(hash, v, e).s.sent|
    ensures Heard(Step(hash, v, e).s.sent, Step(hash, v, e).sources, v.s.readers[c]) ==
            Stamped(Feeders(hash, v, e)[c].Sent(), v.s.created[v.s.readers[c]].id)
  {
    hide VaultOK, FeederOK, OpenedWith, SessionRuns.StreamsOK, Moved, Touched, Effect, Heard, Apply, Step, Feeders, Next,
         Happens, Session.Step;
    ReaderWasThere(hash, v, c);
    FeederAfterStep(hash, v, e, c);
    if e.Move? && e.channel == c {
      MovedIsHeard(hash, v, c, e.pick);
    } else {
      OtherReaderIsHeard(hash, v, e, c);
      StaysQuiet(hash, v, e, v.feeders[c], c);
    }
  }

  lemma MovedIsHeard(hash: string -> ChannelID, v: State, c: ChannelID, pick: Reader.Pick)
    requires VaultOK(hash, v) && HeardOK(v) && c in v.feeders && c in v.s.readers && v.s.readers[c] < |v.s.created|
    requires var v' := Step(hash, v, Move(c, pick)); |v'.sources| == |v'.s.sent|
    ensures var v', f := Step(hash, v, Move(c, pick)), Next(v.feeders[c], c, v.s.db, Happens(hash, v, Move(c, pick), c));
            Heard(v'.s.sent, v'.sources, v.s.readers[c]) == Stamped(f.Sent(), v.s.created[v.s.readers[c]].id)
  {
    hide VaultOK, Moved, Touched, Heard, Step, Session.Step;
    var v', n := Step(hash, v, Move(c, pick)), v.s.readers[c];
    MoveSends(hash, v, c, pick);
    if v'.s.sent != v.s.sent {
      HeardSnoc(v.s.sent, v.sources, v'.s.sent[|v.s.sent|], Some(n), n);
    }
  }

  /** A message for another stream, or a reply, is not heard on this one. */
  lemma OtherReaderIsHeard(hash: string -> ChannelID, v: State, e: Event, c: ChannelID)
    requires VaultOK(hash, v) && c in v.feeders && c in v.s.readers && !(e.Move? && e.channel == c)
    requires |Step(hash, v, e).sources| == |Step(hash, v, e).s.sent| && |v.sources| == |v.s.sent|
    ensures Heard(Step(hash, v, e).s.sent, Step(hash, v, e).sources, v.s.readers[c]) ==
            Heard(v.s.sent, v.sources, v.s.readers[c])
  {
    hide Step, VaultOK, SessionRuns.StreamsOK, StoreRuns.Consistent, ReadersOK, Moved, Heard, Session.Step;
    var v', n := Step(hash, v, e), v.s.readers[c];
    VaultHasStreams(hash, v);
    if e.Move? && e.channel in v.feeders {
      MoveSends(hash, v, e.channel, e.pick);
      DifferentStreams(hash, v.s, c, e.channel);
    } else {
      OthersSend(hash, v, e);
    }
    NotForThisOne(v.s.sent, v'.s.sent, v.sources, v'.sources, n);
  }

  lemma NotForThisOne(sent: seq<Session.Sent>, sent': seq<Session.Sent>, sources: seq<Option<nat>>,
                      sources': seq<Option<nat>>, n: nat)
    requires |sources| == |sent| && |sources'| == |sent'|
    requires (sent' == sent && sources' == sources)
             || (|sent'| == |sent| + 1 && sent'[..|sent|] == sent && sources'[..|sent|] == sources
                 && sources'[|sent|] != Some(n))
    ensures Heard(sent', sources', n) == Heard(sent, sources, n)
  {
    hide Heard;
    if |sent'| > |sent| {
      var m, source := sent'[|sent|], sources'[|sent|];
      assert sent' == sent + [m];
      assert sources' == sources + [source];
      HeardSnoc(sent, sources, m, source, n);
    }
  }

  lemma VaultHasStreams(hash: string -> ChannelID, v: State)
    requires VaultOK(hash, v)
    ensures SessionRuns.StreamsOK(hash, v.s) && StoreRuns.Consistent(v.s.db) && ReadersOK(hash, v.s, v.feeders)
    ensures v.feeders.Keys == v.s.readers.Keys
  {
    hide SessionRuns.StreamsOK, StoreRuns.Consistent, ReaderOK, FeedOK;
  }

  lemma StaysQuiet(hash: string -> ChannelID, v: State, e: Event, f: Feeder, c: ChannelID)
    requires FeederOK(f, c, v.s.db) && !(e.Move? && e.channel == c) && (e.OtherWrite? ==> Lawful(e.op))
    ensures Next(f, c, v.s.db, Happens(hash, v, e, c)).Sent() == f.Sent()
  {
    var x := Happens(hash, v, e, c);
    hide FeederOK, Touched, Moved, Apply, OpenOf, Session.Translated;
    if x.Some? {
      TouchKeepsFeeder(f, c, v.s.db, x.value);
    }
  }

  lemma StepKeepsSources(hash: string -> ChannelID, v: State, e: Event)
    requires VaultOK(hash, v) && SourcesOK(v) && (e.OtherWrite? ==> Lawful(e.op))
    ensures SourcesOK(Step(hash, v, e))
  {
    hide Step, VaultOK, SessionRuns.StreamsOK, StoreRuns.Consistent, ReadersOK, FeedOK, Session.Step, Apply, Outcome;
    StepGrows(hash, v, e);
    VaultHasStreams(hash, v);
    StepAddsMessage(hash, v, e);
  }

  lemma StepKeepsHeard(hash: string -> ChannelID, v: State, e: Event)
    requires VaultOK(hash, v) && HeardOK(v) && (e.OtherWrite? ==> Lawful(e.op))
    ensures HeardOK(Step(hash, v, e))
  {
    hide VaultOK, Step, Feeders, Heard, Moved, NewFeeder, Session.Step;
    var v' := Step(hash, v, e);
    StepHasFeeders(hash, v, e);
    StepKeepsSources(hash, v, e);
    forall c | c in v'.feeders
      ensures c in v'.s.readers && v'.s.readers[c] < |v'.s.created|
      ensures Heard(v'.s.sent, v'.sources, v'.s.readers[c]) ==
              Stamped(v'.feeders[c].Sent(), v'.s.created[v'.s.readers[c]].id)
    {
      StreamAfterStep(hash, v, e, c);
      if c in v.feeders {
        ReaderWasThere(hash, v, c);
        ReaderIsHeard(hash, v, e, c);
      } else {
        NewIsHeard(hash, v, e, c);
      }
    }
  }

  lemma StepHasFeeders(hash: string -> ChannelID, v: State, e: Event)
    ensures Step(hash, v, e).feeders == Feeders(hash, v, e)
  {
  }

  lemma ReaderWasThere(hash: string -> ChannelID, v: State, c: ChannelID)
    requires VaultOK(hash, v) && c in v.feeders
    ensures c in v.s.readers && v.s.readers[c] < |v.s.created| && ReaderOK(hash, v.s, v.feeders[c], c)
  {
    hide SessionRuns.StreamsOK, StoreRuns.Consistent, FeederOK, OpenedWith, FeedOK;
  }

  lemma NewIsHeard(hash: string -> ChannelID, v: State, e: Event, c: ChannelID)
    requires SourcesOK(v) && c !in v.feeders && c in Feeders(hash, v, e)
    requires |Step(hash, v, e).sources| == |Step(hash, v, e).s.sent|
    ensures Heard(Step(hash, v, e).s.sent, Step(hash, v, e).sources, |v.s.created|) == []
    ensures Feeders(hash, v, e)[c].Sent() == []
  {
    hide Step, Feeders, Moved, Session.Step;
    FeederAfterStep(hash, v, e, c);
    OthersSend(hash, v, e);
    NothingHeard(v.s.sent, v.sources, |v.s.created|);
  }

  // ---------- What a reader's history tells ----------

  ghost predicate HasLive(v: State, c: ChannelID) {
    c in v.feeders && v.feeders[c].Live?
  }

  /** The options, or nil, of the resets that the notes have for channel `c`. */
  function NotedFor(notes: seq<(ChannelID, Option<StreamOpts>)>, c: ChannelID): seq<Option<StreamOpts>> {
    if notes == [] then []
    else
      var n := |notes| - 1;
      NotedFor(notes[..n], c) + if notes[n].0 == c then [notes[n].1] else []
  }

  /** The live reader on `c`, if any, has been asked for exactly those resets, in order, that the
      session has noted for `c` since it was started. */
  ghost predicate ResetsNoted(v: State, c: ChannelID) {
    HasLive(v, c) ==>
      && v.feeders[c].since <= |v.s.resets|
      && FeedStarts.Requested(v.feeders[c].events) == NotedFor(v.s.resets[v.feeders[c].since..], c)
  }

  /** A step notes a reset for `c` exactly if it asks the reader on `c` for that reset. */
  lemma ResetsAfterStep(hash: string -> ChannelID, v: State, e: Event, c: ChannelID)
    requires v.feeders.Keys == v.s.readers.Keys && c in v.feeders
    ensures var x, s' := Happens(hash, v, e, c), Step(hash, v, e).s;
            if x.Some? && x.value.RequestReset? then s'.resets == v.s.resets + [(c, x.value.reset)]
            else s'.resets == v.s.resets
                 || (|s'.resets| == |v.s.resets| + 1 && s'.resets[..|v.s.resets|] == v.s.resets && s'.resets[|v.s.resets|].0 != c)
  {
    hide Feeders, Session.Step, Session.Translated, Moved;
    var se := SessionEvent(v, e);
    if e.Request? && v.s.status == Session.Serving && v.s.pending.None? {
      SessionRuns.ReceiveResets(hash, v.s, e.req, e.seconds, e.fault);
    } else if se.Some? {
      SessionRuns.OthersReset(hash, v.s, se.value);
    }
  }

  lemma NotedSnoc(notes: seq<(ChannelID, Option<StreamOpts>)>, note: (ChannelID, Option<StreamOpts>), c: ChannelID)
    ensures NotedFor(notes + [note], c) == NotedFor(notes, c) + if note.0 == c then [note.1] else []
  {
    assert (notes + [note])[..|notes|] == notes;
  }

  lemma RequestedSnoc(es: seq<Reader.Event>, x: Reader.Event)
    ensures FeedStarts.Requested(es + [x]) ==
            FeedStarts.Requested(es) + if x.RequestReset? then [x.reset] else []
  {
    assert (es + [x])[..|es|] == es;
  }

  lemma NextHistory(f: Feeder, c: ChannelID, db: Snapshot, x: Option<Reader.Event>)
    requires f.Live?
    ensures var f' := Next(f, c, db, x);
            f'.Live? && f'.origin == f.origin && f'.since == f.since
            && f'.events == f.events + if x.Some? then [x.value] else []
  {
    hide Reader.Step;
  }

  lemma ReplayStays(f: Feeder, c: ChannelID, db: Snapshot, x: Option<Reader.Event>)
    requires f.Replay?
    ensures Next(f, c, db, x).Replay?
  {
  }

  lemma StepKeepsNoted(hash: string -> ChannelID, v: State, e: Event, c: ChannelID)
    requires v.feeders.Keys == v.s.readers.Keys && ResetsNoted(v, c)
    ensures ResetsNoted(Step(hash, v, e), c)
  {
    StepHasFeeders(hash, v, e);
    hide Step, Feeders, Happens, Next;
    var v' := Step(hash, v, e);
    if HasLive(v', c) {
      FeederAfterStep(hash, v, e, c);
      if c in v.feeders {
        var f, x := v.feeders[c], Happens(hash, v, e, c);
        if f.Replay? {
          ReplayStays(f, c, v.s.db, x);
        } else {
          NextHistory(f, c, v.s.db, x);
          ResetsAfterStep(hash, v, e, c);
          NotesGrowAlike(f, v'.feeders[c], v.s.resets, v'.s.resets, c, x);
        }
      } else {
        NewHasNoNotes(hash, v, e, c);
      }
    }
  }

  lemma NotesGrowAlike(f: Feeder, f': Feeder, notes: seq<(ChannelID, Option<StreamOpts>)>,
                       notes': seq<(ChannelID, Option<StreamOpts>)>, c: ChannelID, x: Option<Reader.Event>)
    requires f.Live? && f.since <= |notes| && FeedStarts.Requested(f.events) == NotedFor(notes[f.since..], c)
    requires f'.Live? && f'.since == f.since && f'.events == f.events + if x.Some? then [x.value] else []
    requires if x.Some? && x.value.RequestReset? then notes' == notes + [(c, x.value.reset)]
             else notes' == notes
                  || (|notes'| == |notes| + 1 && notes'[..|notes|] == notes && notes'[|notes|].0 != c)
    ensures f'.since <= |notes'| && FeedStarts.Requested(f'.events) == NotedFor(notes'[f'.since..], c)
  {
    if x.Some? {
      RequestedSnoc(f.events, x.value);
    } else {
      assert f'.events == f.events;
    }
    if notes' != notes {
      var note := notes'[|notes|];
      assert notes'[f.since..] == notes[f.since..] + [note];
      NotedSnoc(notes[f.since..], note, c);
    }
  }

  lemma NewHasNoNotes(hash: string -> ChannelID, v: State, e: Event, c: ChannelID)
    requires c !in v.feeders && v.feeders.Keys == v.s.readers.Keys && HasLive(Step(hash, v, e), c)
    ensures ResetsNoted(Step(hash, v, e), c)
  {
    StepHasFeeders(hash, v, e);
    FeederAfterStep(hash, v, e, c);
    hide Feeders, Session.Step, Session.Translated;
    SessionRuns.ReceiveResets(hash, v.s, e.req, e.seconds, e.fault);
    var f := Step(hash, v, e).feeders[c];
    assert Step(hash, v, e).s.resets[f.since..] == [];
  }

  /** A reader whose channel was being watched when the connection began was started in time. */
  ghost predicate Watched(v: State, c: ChannelID) {
    c in v.watchers && (HasLive(v, c) ==> v.feeders[c].origin.watching)
  }

  lemma StepKeepsWatched(hash: string -> ChannelID, v: State, e: Event, c: ChannelID)
    requires Watched(v, c)
    ensures Watched(Step(hash, v, e), c)
  {
    StepHasFeeders(hash, v, e);
    var v' := Step(hash, v, e);
    assert c in v'.watchers;
    hide Step, Feeders, Happens, Next;
    if HasLive(v', c) {
      FeederAfterStep(hash, v, e, c);
      if c in v.feeders {
        if v.feeders[c].Replay? {
          ReplayStays(v.feeders[c], c, v.s.db, Happens(hash, v, e, c));
        } else {
          NextHistory(v.feeders[c], c, v.s.db, Happens(hash, v, e, c));
        }
      }
    }
  }

  /** Whatever the step writes into channel `c` sorts after all of the channel's entries. */
  ghost predicate StepInOrder(hash: string -> ChannelID, v: State, e: Event, c: ChannelID) {
    match e
    case OtherWrite(op) => LiveFeed.AtTheEnd(v.s.db, EntryPrefix(c), op)
    case Request(req, seconds, fault) =>
      var op := WriteOf(hash, req, seconds, fault);
      op.Some? && v.s.status == Session.Serving && v.s.pending.None? ==>
        LiveFeed.AtTheEnd(v.s.db, EntryPrefix(c), op.value)
    case _ => true
  }

  ghost predicate InOrder(hash: string -> ChannelID, v: State, es: seq<Event>, c: ChannelID) {
    forall i :: 0 <= i < |es| ==> StepInOrder(hash, Run(hash, v, es[..i]), es[i], c)
  }

  ghost predicate Ordered(v: State, c: ChannelID) {
    HasLive(v, c) ==> LiveFeed.IncreasingIDs(v.feeders[c].origin, v.feeders[c].events)
  }

  lemma OrderSnoc(w0: Reader.World, es: seq<Reader.Event>, x: Reader.Event)
    requires LiveFeed.IncreasingIDs(w0, es)
    requires x.Write? ==> LiveFeed.AtTheEnd(Reader.Run(w0, es).db, w0.prefix, x.op)
    ensures LiveFeed.IncreasingIDs(w0, es + [x])
  {
    var es' := es + [x];
    hide LiveFeed.AtTheEnd, Reader.Run;
    forall i | 0 <= i < |es'| && es'[i].Write?
      ensures LiveFeed.AtTheEnd(Reader.Run(w0, es'[..i]).db, w0.prefix, es'[i].op)
    {
      assert es'[..i] == es[..i];
      assert i == |es| ==> es[..i] == es;
    }
  }

  lemma HappensInOrder(hash: string -> ChannelID, v: State, e: Event, c: ChannelID)
    requires StepInOrder(hash, v, e, c)
    ensures var x := Happens(hash, v, e, c);
            x.Some? && x.value.Write? ==> LiveFeed.AtTheEnd(v.s.db, EntryPrefix(c), x.value.op)
  {
    hide LiveFeed.AtTheEnd, WriteOf, OpenOf, Session.Translated;
  }

  lemma StepKeepsOrdered(hash: string -> ChannelID, v: State, e: Event, c: ChannelID)
    requires VaultOK(hash, v) && Ordered(v, c) && StepInOrder(hash, v, e, c)
    ensures Ordered(Step(hash, v, e), c)
  {
    StepHasFeeders(hash, v, e);
    hide Step, Feeders, Happens, Next, VaultOK, LiveFeed.IncreasingIDs, StepInOrder;
    var v' := Step(hash, v, e);
    if HasLive(v', c) {
      FeederAfterStep(hash, v, e, c);
      if c in v.feeders {
        var f, x := v.feeders[c], Happens(hash, v, e, c);
        if f.Replay? {
          ReplayStays(f, c, v.s.db, x);
        } else {
          NextHistory(f, c, v.s.db, x);
          if x.Some? {
            LiveReader(hash, v, c);
            HappensInOrder(hash, v, e, c);
            OrderSnoc(f.origin, f.events, x.value);
          } else {
            assert f.events + [] == f.events;
          }
        }
      } else {
        NothingOrdered(v'.feeders[c].origin);
      }
    }
  }

  lemma NothingOrdered(w: Reader.World)
    ensures LiveFeed.IncreasingIDs(w, [])
  {
  }

  /** The run behind a live reader, on the database that the session has. */
  lemma LiveReader(hash: string -> ChannelID, v: State, c: ChannelID)
    requires VaultOK(hash, v) && HasLive(v, c)
    ensures var f := v.feeders[c];
            && Lived(f.w, f.origin, f.events, c) && f.w.db == v.s.db && f.w.prefix == EntryPrefix(c)
            && Reader.Run(f.origin, f.events) == f.w && Reader.LawfulRun(f.events)
            && Reader.Initial(f.origin, f.w.r.opts) && f.origin.resets == [] && f.origin.prefix == EntryPrefix(c)
  {
    ReaderWasThere(hash, v, c);
    hide VaultOK, OpenedWith;
    LivedIsInitial(v.feeders[c].w, v.feeders[c].origin, v.feeders[c].events, c);
  }
}

/** The client's request numbering and its table of open feeds. */
module Client {
  import opened Messages
  import opened Session
  import opened StreamOptions

  /** `New` requests carry a number of their own, and those of `OpenURI` note the URI; `Closing`
      ones name an earlier request. */
  datatype Out = New(req: FeedReq, opens: Option<string>) | Closing(req: FeedReq)

  datatype State = State(counter: ReqID, reqMapping: map<string, ReqID>, out: seq<Out>)

  datatype Call = SendCall(req: FeedReq) | OpenCall(uri: string) | CloseCall(uri: string)

  /** `counter += 1` on an int32. */
  function Bump(counter: ReqID): ReqID {
    if counter == 0x7FFF_FFFF then -0x8000_0000 else counter + 1
  }

  /** The same request under another number. */
  function Renumbered(req: FeedReq, id: ReqID): FeedReq {
    match req
    case ChannelGenesis(_, entry) => ChannelGenesis(id, entry)
    case OpenFeed(_, open) => OpenFeed(id, open)
    case CancelReq(_) => CancelReq(id)
    case AppendEntry(_, entry) => AppendEntry(id, entry)
    case UnsupportedOp(_) => UnsupportedOp(id)
  }

  /** What `OpenURI` asks for: everything after the head, without limit, with bodies. */
  function OpenRequest(uri: string, id: ReqID): FeedReq {
    OpenFeed(id, Some(OpenReq(uri, AfterHead, [], -1, false)))
  }

  function Called(s: State, call: Call): State {
    match call
    case SendCall(req) =>
      var id := Bump(s.counter);
      s.(counter := id, out := s.out + [New(Renumbered(req, id), None)])
    case OpenCall(uri) =>
      var id := Bump(s.counter);
      s.(counter := id, reqMapping := s.reqMapping[uri := id], out := s.out + [New(OpenRequest(uri, id), Some(uri))])
    case CloseCall(uri) =>
      if uri in s.reqMapping then s.(out := s.out + [Closing(CancelReq(s.reqMapping[uri]))]) else s
  }

  function CalledAll(calls: seq<Call>): State {
    if calls == [] then NEW_CLIENT else Called(CalledAll(calls[..|calls| - 1]), calls[|calls| - 1])
  }

  const NEW_CLIENT := State(0, map[], [])

  /** The client object; `sent` is what has been passed to the session. */
  class Client {
    var reqMapping: map<string, ReqID>
    var counter: ReqID
    var sent: seq<Out>

    ghost function View(): State
      reads this
    {
      State(counter, reqMapping, sent)
    }

    constructor ()
      ensures View() == NEW_CLIENT
    {
      reqMapping, counter, sent := map[], 0, [];
    }

    method Send(req: FeedReq)
      modifies this
      ensures View() == Called(old(View()), SendCall(req))
    {
      counter := if counter == 0x7FFF_FFFF then -0x8000_0000 else counter + 1;
      sent := sent + [New(Renumbered(req, counter), None)];
    }

    method OpenURI(uri: string)
      modifies this
      ensures View() == Called(old(View()), OpenCall(uri))
    {
      counter := if counter == 0x7FFF_FFFF then -0x8000_0000 else counter + 1;
      reqMapping := reqMapping[uri := counter];
      sent := sent + [New(OpenFeed(counter, Some(OpenReq(uri, AfterHead, [], -1, false))), Some(uri))];
    }

    /** False, and nothing is sent, for a URI that was never opened. */
    method CloseURI(uri: string) returns (ok: bool)
      modifies this
      ensures View() == Called(old(View()), CloseCall(uri))
      ensures ok <==> uri in old(reqMapping)
    {
      if uri !in reqMapping {
        return false;
      }
      sent := sent + [Closing(CancelReq(reqMapping[uri]))];
      ok := true;
    }
  }

  // ---------- Numbers ----------

  ghost predicate Opens(o: Out, u: string) {
    o.New? && o.opens == Some(u) && o.req == OpenRequest(u, o.req.reqID)
  }

  /** `id` numbers an open of `u` that was sent, and no later number does. */
  ghost predicate LatestOpen(out: seq<Out>, u: string, id: ReqID) {
    && (exists i :: 0 <= i < |out| && Opens(out[i], u) && out[i].req.reqID == id)
    && (forall i :: 0 <= i < |out| && Opens(out[i], u) ==> out[i].req.reqID <= id)
  }

  /** New requests use the numbers from 1 up to the counter, strictly increasing; opens are what
      they say and have an entry in the table; the others cancel. */
  ghost predicate SentOK(s: State) {
    && 0 <= s.counter
    && (forall i :: 0 <= i < |s.out| && s.out[i].New? ==> 1 <= s.out[i].req.reqID <= s.counter)
    && (forall i, j :: 0 <= i < j < |s.out| && s.out[i].New? && s.out[j].New? ==>
          s.out[i].req.reqID < s.out[j].req.reqID)
    && (forall i :: 0 <= i < |s.out| && s.out[i].New? && s.out[i].opens.Some? ==>
          Opens(s.out[i], s.out[i].opens.value) && s.out[i].opens.value in s.reqMapping)
    && (forall i :: 0 <= i < |s.out| && s.out[i].Closing? ==> s.out[i].req.CancelReq?)
  }

  /** Besides, the table holds the number of the latest open of every URI in it. */
  ghost predicate NumbersOK(s: State) {
    SentOK(s) && forall u :: u in s.reqMapping ==> LatestOpen(s.out, u, s.reqMapping[u])
  }

  lemma OlderStaysLatest(s: State, o: Out, u: string)
    requires u in s.reqMapping && LatestOpen(s.out, u, s.reqMapping[u]) && !Opens(o, u)
    ensures LatestOpen(s.out + [o], u, s.reqMapping[u])
  {
    var i :| 0 <= i < |s.out| && Opens(s.out[i], u) && s.out[i].req.reqID == s.reqMapping[u];
    assert (s.out + [o])[i] == s.out[i];
  }

  lemma NewestIsLatest(s: State, u: string)
    requires NumbersOK(s) && s.counter < 0x7FFF_FFFF
    ensures LatestOpen(Called(s, OpenCall(u)).out, u, Bump(s.counter))
  {
    var out' := Called(s, OpenCall(u)).out;
    assert Opens(out'[|s.out|], u);
  }

  lemma CallKeepsSent(s: State, call: Call)
    requires SentOK(s) && (call.CloseCall? || s.counter < 0x7FFF_FFFF)
    ensures SentOK(Called(s, call))
            && Called(s, call).counter == s.counter + if call.CloseCall? then 0 else 1
  {
    match call
    case SendCall(_) =>
    case OpenCall(_) =>
    case CloseCall(_) =>
  }

  lemma CallKeepsTable(s: State, call: Call, u: string)
    requires NumbersOK(s) && (call.CloseCall? || s.counter < 0x7FFF_FFFF) && u in Called(s, call).reqMapping
    ensures LatestOpen(Called(s, call).out, u, Called(s, call).reqMapping[u])
  {
    var s' := Called(s, call);
    if call == OpenCall(u) {
      NewestIsLatest(s, u);
    } else if s'.out != s.out {
      var o := s'.out[|s.out|];
      assert s'.out == s.out + [o] && !Opens(o, u) && s'.reqMapping[u] == s.reqMapping[u];
      hide Called;
      OlderStaysLatest(s, o, u);
    }
  }

  lemma CallKeepsNumbers(s: State, call: Call)
    requires NumbersOK(s) && (call.CloseCall? || s.counter < 0x7FFF_FFFF)
    ensures NumbersOK(Called(s, call))
            && Called(s, call).counter == s.counter + if call.CloseCall? then 0 else 1
  {
    hide SentOK, LatestOpen, Called;
    CallKeepsSent(s, call);
    forall u | u in Called(s, call).reqMapping
      ensures LatestOpen(Called(s, call).out, u, Called(s, call).reqMapping[u])
    {
      CallKeepsTable(s, call, u);
    }
  }

  /** The calls that take a number: closing a URI names an earlier one. */
  function Bumps(calls: seq<Call>): nat {
    if calls == [] then 0
    else
      var n := |calls| - 1;
      Bumps(calls[..n]) + if calls[n].CloseCall? then 0 else 1
  }

  /** As long as fewer than 2^31 numbers have been taken, the numbers of new requests strictly
      increase, and the table leads from each URI ever opened to its latest open, from different
      URIs to different requests. */
  lemma {:induction false} NumbersNeverRepeat(calls: seq<Call>)
    requires Bumps(calls) < 0x8000_0000
    ensures NumbersOK(CalledAll(calls)) && CalledAll(calls).counter == Bumps(calls)
    ensures var m := CalledAll(calls).reqMapping;
            forall u, v :: u in m && v in m && m[u] == m[v] ==> u == v
  {
    if calls == [] {
    } else {
      var n := |calls| - 1;
      NumbersNeverRepeat(calls[..n]);
      CallKeepsNumbers(CalledAll(calls[..n]), calls[n]);
    }
    var s := CalledAll(calls);
    forall u, v | u in s.reqMapping && v in s.reqMapping && s.reqMapping[u] == s.reqMapping[v] ensures u == v {
      SameNumberSameURI(s, u, v);
    }
  }

  lemma SameNumberSameURI(s: State, u: string, v: string)
    requires NumbersOK(s) && u in s.reqMapping && v in s.reqMapping && s.reqMapping[u] == s.reqMapping[v]
    ensures u == v
  {
    assert LatestOpen(s.out, u, s.reqMapping[u]) && LatestOpen(s.out, v, s.reqMapping[v]);
    var i :| 0 <= i < |s.out| && Opens(s.out[i], u) && s.out[i].req.reqID == s.reqMapping[u];
    var j :| 0 <= j < |s.out| && Opens(s.out[j], v) && s.out[j].req.reqID == s.reqMapping[v];
    assert i == j;
  }

  /** The numbers of new requests are positive and increase in the order of sending. */
  predicate Increasing(out: seq<Out>) {
    && (forall i :: 0 <= i < |out| && out[i].New? ==> out[i].req.reqID > 0)
    && (forall i, j :: 0 <= i < j < |out| && out[i].New? && out[j].New? ==> out[i].req.reqID < out[j].req.reqID)
  }

  /** The number after 2^31 - 1 is negative, and it stays among those sent. */
  lemma {:induction false} SomeNumberIsNegative(calls: seq<Call>) returns (i: nat)
    requires Bumps(calls) >= 0x8000_0000
    ensures var out := CalledAll(calls).out; i < |out| && out[i].New? && out[i].req.reqID < 0
  {
    var n := |calls| - 1;
    var s := CalledAll(calls[..n]);
    if Bumps(calls[..n]) >= 0x8000_0000 {
      i := SomeNumberIsNegative(calls[..n]);
      assert s.out <= CalledAll(calls).out;
    } else {
      NumbersNeverRepeat(calls[..n]);
      i := |s.out|;
    }
  }

  /** Numbers are positive and increase in all of a client's requests if, and only if, it takes
      fewer than 2^31 of them. */
  lemma {:induction false} NumbersIncreaseExactly(calls: seq<Call>)
    ensures Increasing(CalledAll(calls).out) <==> Bumps(calls) < 0x8000_0000
  {
    if Bumps(calls) < 0x8000_0000 {
      NumbersNeverRepeat(calls);
    } else {
      var i := SomeNumberIsNegative(calls);
    }
  }

  // ---------- What is sent ----------

  /** The requests ask for the same, whatever their numbers. */
  predicate SamePayload(a: FeedReq, b: FeedReq) {
    match a
    case ChannelGenesis(_, entry) => b.ChannelGenesis? && b.entry == entry
    case OpenFeed(_, open) => b.OpenFeed? && b.open == open
    case CancelReq(_) => b.CancelReq?
    case AppendEntry(_, entry) => b.AppendEntry? && b.entry == entry
    case UnsupportedOp(_) => b.UnsupportedOp?
  }

  /** A request is sent as given, under the number that the counter then shows; the table of opens
      does not change. */
  lemma SentAsGiven(s: State, req: FeedReq)
    ensures var s' := Called(s, SendCall(req));
            && |s'.out| == |s.out| + 1 && s.out <= s'.out && s'.out[|s.out|].New?
            && SamePayload(req, s'.out[|s.out|].req) && s'.out[|s.out|].req.reqID == s'.counter
            && s'.reqMapping == s.reqMapping
  {
  }

  /** Opening a URI sends one request, for that URI, under the number that the counter and the table
      then show; the server reads it as: skip everything up to the head, no limit, whole entries. */
  lemma OpensFromHead(s: State, uri: string)
    ensures var s' := Called(s, OpenCall(uri));
            && |s'.out| == |s.out| + 1 && s.out <= s'.out && s'.reqMapping == s.reqMapping[uri := s'.counter]
            && var req := s'.out[|s.out|].req;
            && req.OpenFeed? && req.reqID == s'.counter && req.open.Some? && req.open.value.feedURI == uri
            && Translated(req.open.value).Some?
            && var opts := Translated(req.open.value).value;
            && opts.FromHead() && opts.SkipFirst() && !opts.KeysOnly() && !opts.FromIndex() && opts.max == TAIL
  {
  }

  /** Closing a URI that was opened sends exactly one request, the cancellation of its latest open;
      closing one that was not sends none. */
  lemma {:induction false} CloseCancelsLatest(calls: seq<Call>, u: string)
    requires Bumps(calls) < 0x8000_0000
    ensures var s, s' := CalledAll(calls), Called(CalledAll(calls), CloseCall(u));
            if exists i :: 0 <= i < |s.out| && Opens(s.out[i], u) then
              && |s'.out| == |s.out| + 1 && s.out <= s'.out
              && s'.out[|s.out|].Closing? && s'.out[|s.out|].req.CancelReq?
              && LatestOpen(s.out, u, s'.out[|s.out|].req.reqID)
            else s' == s
  {
    var s := CalledAll(calls);
    NumbersNeverRepeat(calls);
    if u in s.reqMapping {
      assert LatestOpen(s.out, u, s.reqMapping[u]);
    }
  }
}

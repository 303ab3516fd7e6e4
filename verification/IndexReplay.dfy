/** Replay of a channel in arrival order, for clients that were away, and the arrival keys they
    keep as bookmarks. */
module IndexReplay {
  import opened ByteStrings
  import opened Database
  import opened Keys
  import opened Messages
  import opened StoreRuns
  import opened StreamOptions
  import opened Transactions

  /** The channel's arrival keys from the seek key on, in ascending order. */
  ghost function ReplayOrder(keys: set<Bytes>, c: ChannelID, seek: Bytes): seq<Bytes> {
    Scan(keys, seek, IndexPrefix(c))
  }

  /** What is published for one arrival key. */
  function Replayed(keysOnly: bool, view: Snapshot, c: ChannelID, a: Bytes): Msg
    requires |a| >= 39 && (keysOnly || EntryKeyFromIndex(c, a) in view)
  {
    if keysOnly then IDOnly(EntryIDFromIndex(a)) else Unmarshal(view[EntryKeyFromIndex(c, a)])
  }

  /** Arrival keys are long enough to hold an ID; slicing them would panic otherwise. */
  ghost predicate Sliceable(view: Snapshot, c: ChannelID) {
    forall a :: a in view && IndexPrefix(c) <= a ==> |a| >= 39
  }

  // ---------- The iterator follows the order ----------

  lemma OrderIsAscending(keys: set<Bytes>, seek: Bytes, prefix: Bytes)
    ensures var order := Scan(keys, seek, prefix);
            && Sorted(order)
            && (forall k :: k in order ==> k in InRange(keys, seek, prefix))
            && (!Blocked(keys, seek, prefix) ==> forall k :: k in InRange(keys, seek, prefix) ==> k in order)
  {
    AscendingEnumerates(InRange(keys, seek, prefix));
  }

  /** `at` is the iterator's place before the `i`-th key of the order. */
  ghost predicate AtPlace(keys: set<Bytes>, seek: Bytes, prefix: Bytes, i: nat, at: Option<Bytes>) {
    var order := Scan(keys, seek, prefix);
    i <= |order| && if i < |order| then at == Some(order[i]) else !OnPrefix(at, prefix)
  }

  lemma LandingIsFirst(keys: set<Bytes>, seek: Bytes, prefix: Bytes)
    ensures AtPlace(keys, seek, prefix, 0, Landing(keys, seek, prefix))
  {
    var order, at := Scan(keys, seek, prefix), Landing(keys, seek, prefix);
    BlockedLandsBelow(keys, seek, prefix);
    OrderIsAscending(keys, seek, prefix);
    if order != [] {
      assert order[0] in InRange(keys, seek, prefix);
      assert order[0] in KeysFrom(keys, SeekTarget(seek, prefix));
      FirstAheadIsNext(keys, seek, prefix, at, 0);
    } else {
      LandingIsInOrder(keys, seek, prefix);
    }
  }

  lemma LandingIsInOrder(keys: set<Bytes>, seek: Bytes, prefix: Bytes)
    ensures OnPrefix(Landing(keys, seek, prefix), prefix) ==>
              Landing(keys, seek, prefix).value in Scan(keys, seek, prefix)
  {
    var at := Landing(keys, seek, prefix);
    if OnPrefix(at, prefix) {
      BlockedLandsBelow(keys, seek, prefix);
      OrderIsAscending(keys, seek, prefix);
      assert at.value in InRange(keys, seek, prefix);
    }
  }

  /** The least key ahead is the next of the order, as long as that key belongs to the prefix. */
  lemma FirstAheadIsNext(keys: set<Bytes>, seek: Bytes, prefix: Bytes, at: Option<Bytes>, i: nat)
    requires var order := Scan(keys, seek, prefix); i < |order| && at.Some? && AtMost(at.value, order[i])
    requires at.value in keys && AtMost(SeekTarget(seek, prefix), at.value)
    requires i > 0 ==> Less(Scan(keys, seek, prefix)[i - 1], at.value)
    ensures at == Some(Scan(keys, seek, prefix)[i])
  {
    var order, k := Scan(keys, seek, prefix), at.value;
    OrderIsAscending(keys, seek, prefix);
    assert order[i] in order && order[i] in InRange(keys, seek, prefix);
    LessTotal(k, prefix);
    assert !Less(k, prefix);
    PrefixConvex(prefix, prefix, k, order[i]);
    assert k in InRange(keys, seek, prefix);
    var j :| 0 <= j < |order| && order[j] == k;
    if j < i {
      if j < i - 1 {
        LessTransitive(k, order[i - 1], k);
      }
      LessIrreflexive(k);
    } else if i < j && k != order[i] {
      LessTransitive(k, order[i], k);
      LessIrreflexive(k);
    }
  }

  lemma NextInOrder(keys: set<Bytes>, seek: Bytes, prefix: Bytes, i: nat)
    requires i < |Scan(keys, seek, prefix)|
    ensures AtPlace(keys, seek, prefix, i + 1, LeastOf(KeysAbove(keys, Scan(keys, seek, prefix)[i])))
  {
    var order := Scan(keys, seek, prefix);
    var k := order[i];
    var at := LeastOf(KeysAbove(keys, k));
    OrderIsAscending(keys, seek, prefix);
    assert k in order && k in InRange(keys, seek, prefix);
    if at.Some? {
      var target := SeekTarget(seek, prefix);
      assert AtMost(target, at.value) by {
        if target != k {
          LessTransitive(target, k, at.value);
        }
      }
    }
    if i + 1 < |order| {
      assert order[i + 1] in order && Less(k, order[i + 1]);
      assert order[i + 1] in KeysAbove(keys, k);
      FirstAheadIsNext(keys, seek, prefix, at, i + 1);
    } else if OnPrefix(at, prefix) {
      assert at.value in InRange(keys, seek, prefix);
      SortedLast(order, at.value);
      LessAntisymmetric(k, at.value);
    }
  }

  // ---------- The replay loop ----------

  /** What the select of one round finds ready: cancellation, a notification, or neither. */
  datatype Round = Cancelled | Notified | Idle

  /** `out` shows the first keys of the order, one message each. */
  ghost predicate Shows(out: seq<Msg>, order: seq<Bytes>, keysOnly: bool, view: Snapshot, c: ChannelID) {
    && |out| <= |order|
    && forall i :: 0 <= i < |out| ==> ShowsKey(out[i], order[i], keysOnly, view, c)
  }

  ghost predicate ShowsKey(msg: Msg, a: Bytes, keysOnly: bool, view: Snapshot, c: ChannelID) {
    && |a| >= 39 && (keysOnly || EntryKeyFromIndex(c, a) in view)
    && msg == Replayed(keysOnly, view, c, a)
  }

  lemma ShowsOneMore(out: seq<Msg>, msg: Msg, order: seq<Bytes>, keysOnly: bool, view: Snapshot, c: ChannelID)
    requires Shows(out, order, keysOnly, view, c) && |out| < |order|
    requires ShowsKey(msg, order[|out|], keysOnly, view, c)
    ensures Shows(out + [msg], order, keysOnly, view, c)
  {
    hide ShowsKey;
  }

  /** The index names an entry that the snapshot does not have. */
  ghost predicate Dangling(a: Bytes, view: Snapshot, c: ChannelID) {
    |a| >= 39 && EntryKeyFromIndex(c, a) !in view
  }

  lemma PlaceIsCursor(view: Snapshot, seek: Bytes, c: ChannelID, i: nat, at: Option<Bytes>)
    requires AtPlace(view.Keys, seek, IndexPrefix(c), i, at) && Sliceable(view, c)
    ensures var order := ReplayOrder(view.Keys, c, seek);
            && i <= |order|
            && (OnPrefix(at, IndexPrefix(c)) ==>
                  i < |order| && order == Scan(view.Keys, seek, IndexPrefix(c)) && at == Some(order[i]) && |at.value| >= 39)
            && (!OnPrefix(at, IndexPrefix(c)) ==> i == |order|)
  {
    OrderIsAscending(view.Keys, seek, IndexPrefix(c));
    var order := Scan(view.Keys, seek, IndexPrefix(c));
    if i < |order| {
      assert order[i] in order;
    }
  }

  /** The ID that an index key carries, or what is stored under the entry key it names. */
  method MessageOf(view: Snapshot, c: ChannelID, keysOnly: bool, a: Bytes) returns (msg: Option<Msg>)
    requires |a| >= 39
    ensures msg.Some? ==> ShowsKey(msg.value, a, keysOnly, view, c)
    ensures msg.None? ==> Dangling(a, view, c) && !keysOnly
  {
    if keysOnly {
      return Some(IDOnly(EntryIDFromIndex(a)));
    }
    var key := EntryKeyFromIndex(c, a);
    if key !in view {
      return None;
    }
    msg := Some(Unmarshal(view[key]));
  }

  /** How many of the `left` keys at hand the rounds from `round` on let through: each idle round
      one key, a notification none, and after a cancellation no more; rounds beyond the list are
      idle. */
  function Allowed(rounds: seq<Round>, round: nat, left: nat): (n: nat)
    ensures n <= left
    decreases |rounds| - round
  {
    if left == 0 || round >= |rounds| then left
    else match rounds[round]
      case Cancelled => 0
      case Notified => Allowed(rounds, round + 1, left)
      case Idle => 1 + Allowed(rounds, round + 1, left - 1)
  }

  /** The keys from the seek position on, as far as the limit goes. */
  ghost function KeysInReach(view: Snapshot, c: ChannelID, opts: StreamOpts): nat {
    var order := ReplayOrder(view.Keys, c, opts.seek);
    if |order| < opts.max then |order| else opts.max
  }

  /** Without a cancellation that is all of them. */
  lemma {:induction false} NeverCancelled(rounds: seq<Round>, round: nat, left: nat)
    requires forall i :: round <= i < |rounds| ==> rounds[i] != Cancelled
    ensures Allowed(rounds, round, left) == left
    decreases |rounds| - round
  {
    if left == 0 || round >= |rounds| {
    } else {
      NeverCancelled(rounds, round + 1, if rounds[round] == Idle then left - 1 else left);
    }
  }

  /** With one it is the number of idle rounds before the first cancellation, or all of them. */
  lemma {:induction false} CancelledAt(rounds: seq<Round>, round: nat, left: nat, n: nat)
    requires round <= n < |rounds| && rounds[n] == Cancelled
    requires forall i :: round <= i < n ==> rounds[i] != Cancelled
    ensures var idle := multiset(rounds[round..n])[Idle];
            Allowed(rounds, round, left) == if idle < left then idle else left
    decreases n - round
  {
    if left == 0 || round == n {
      assert rounds[n..n] == [];
    } else {
      assert rounds[round..n] == [rounds[round]] + rounds[round + 1..n];
      CancelledAt(rounds, round + 1, if rounds[round] == Idle then left - 1 else left, n);
    }
  }

  /** The result of a whole replay: the messages show the first arrival keys in order; without
      error as many as the limit and the rounds allow; and an error ends the replay exactly at the
      first allowed key whose entry is missing. */
  ghost predicate Walked(view: Snapshot, c: ChannelID, opts: StreamOpts, rounds: seq<Round>,
                         out: seq<Msg>, err: Option<Error>)
  {
    var order, allowed := ReplayOrder(view.Keys, c, opts.seek), Allowed(rounds, 0, KeysInReach(view, c, opts));
    && Shows(out, order, opts.KeysOnly(), view, c)
    && (err.None? ==> |out| == allowed)
    && (err.Some? ==> err == Some(KeyNotFound) && !opts.KeysOnly() && |out| < allowed && Dangling(order[|out|], view, c))
  }

  /** The replay before the given round, its iterator at `at`. */
  ghost predicate Walking(view: Snapshot, c: ChannelID, opts: StreamOpts, rounds: seq<Round>,
                          round: nat, out: seq<Msg>, at: Option<Bytes>)
  {
    var reach := KeysInReach(view, c, opts);
    && Sliceable(view, c) && |out| <= reach
    && Shows(out, ReplayOrder(view.Keys, c, opts.seek), opts.KeysOnly(), view, c)
    && AtPlace(view.Keys, opts.seek, IndexPrefix(c), |out|, at)
    && Allowed(rounds, 0, reach) == |out| + Allowed(rounds, round, reach - |out|)
  }

  lemma WalkEnds(view: Snapshot, c: ChannelID, opts: StreamOpts, rounds: seq<Round>,
                 round: nat, out: seq<Msg>, at: Option<Bytes>)
    requires Walking(view, c, opts, rounds, round, out, at)
    requires |out| >= opts.max || (round < |rounds| && rounds[round] == Cancelled) || !OnPrefix(at, IndexPrefix(c))
    ensures Walked(view, c, opts, rounds, out, None)
  {
    PlaceIsCursor(view, opts.seek, c, |out|, at);
    hide Shows, AtPlace, ReplayOrder, Sliceable, OnPrefix;
  }

  lemma WalkWaits(view: Snapshot, c: ChannelID, opts: StreamOpts, rounds: seq<Round>,
                  round: nat, out: seq<Msg>, at: Option<Bytes>)
    requires Walking(view, c, opts, rounds, round, out, at) && round < |rounds| && rounds[round] == Notified
    ensures Walking(view, c, opts, rounds, round + 1, out, at)
  {
    hide Shows, AtPlace, ReplayOrder, Sliceable;
  }

  /** At an idle round below the limit the iterator is at the next key of the order. */
  lemma NextItem(view: Snapshot, c: ChannelID, opts: StreamOpts, rounds: seq<Round>,
                 round: nat, out: seq<Msg>, at: Option<Bytes>)
    requires Walking(view, c, opts, rounds, round, out, at) && |out| < opts.max && OnPrefix(at, IndexPrefix(c))
    ensures |out| < KeysInReach(view, c, opts) <= |ReplayOrder(view.Keys, c, opts.seek)| && |at.value| >= 39
    ensures at == Some(ReplayOrder(view.Keys, c, opts.seek)[|out|])
  {
    PlaceIsCursor(view, opts.seek, c, |out|, at);
    hide Shows, AtPlace, ReplayOrder, Sliceable, OnPrefix, Allowed;
  }

  lemma WalkFails(view: Snapshot, c: ChannelID, opts: StreamOpts, rounds: seq<Round>,
                  round: nat, out: seq<Msg>, at: Option<Bytes>)
    requires Walking(view, c, opts, rounds, round, out, at) && |out| < opts.max && OnPrefix(at, IndexPrefix(c))
    requires (round < |rounds| ==> rounds[round] == Idle) && Dangling(at.value, view, c) && !opts.KeysOnly()
    ensures Walked(view, c, opts, rounds, out, Some(KeyNotFound))
  {
    NextItem(view, c, opts, rounds, round, out, at);
    hide Shows, AtPlace, ReplayOrder, Sliceable, OnPrefix, Dangling, KeysInReach;
  }

  lemma IdleAllowsOne(rounds: seq<Round>, round: nat, left: nat)
    requires left > 0 && (round < |rounds| ==> rounds[round] == Idle)
    ensures Allowed(rounds, round, left) == 1 + Allowed(rounds, if round < |rounds| then round + 1 else round, left - 1)
  {
  }

  lemma WalkShows(view: Snapshot, c: ChannelID, opts: StreamOpts, rounds: seq<Round>,
                  round: nat, out: seq<Msg>, at: Option<Bytes>, msg: Msg)
    requires Walking(view, c, opts, rounds, round, out, at) && |out| < opts.max && OnPrefix(at, IndexPrefix(c))
    requires (round < |rounds| ==> rounds[round] == Idle) && ShowsKey(msg, at.value, opts.KeysOnly(), view, c)
    ensures Walking(view, c, opts, rounds, if round < |rounds| then round + 1 else round,
                    out + [msg], LeastOf(KeysAbove(view.Keys, at.value)))
  {
    hide Shows, ShowsKey, AtPlace, Sliceable, LeastOf, KeysAbove, KeysInReach, OnPrefix, Scan, Allowed, IndexPrefix;
    NextItem(view, c, opts, rounds, round, out, at);
    var left := KeysInReach(view, c, opts) - |out|;
    IdleAllowsOne(rounds, round, left);
    assert |out + [msg]| == |out| + 1 && KeysInReach(view, c, opts) - |out + [msg]| == left - 1;
    NextInOrder(view.Keys, opts.seek, IndexPrefix(c), |out|);
    ShowsOneMore(out, msg, ReplayOrder(view.Keys, c, opts.seek), opts.KeysOnly(), view, c);
  }

  /** One snapshot is taken; notifications are only consumed; `rounds` says what each round of
      the loop finds, and rounds beyond it find nothing. Without cancellation and error everything
      within the limit is shown. */
  method ReadFromIndex(view: Snapshot, c: ChannelID, opts: StreamOpts, rounds: seq<Round>)
    returns (out: seq<Msg>, err: Option<Error>)
    requires Sliceable(view, c)
    ensures Walked(view, c, opts, rounds, out, err)
    ensures err.None? && Cancelled !in rounds ==> |out| == KeysInReach(view, c, opts)
  {
    out, err := [], None;
    var count: U64 := 0;
    var it := new Iterator(view, IndexPrefix(c));
    it.Seek(opts.seek);
    LandingIsFirst(view.Keys, opts.seek, IndexPrefix(c));
    var round := 0;
    assert Walking(view, c, opts, rounds, round, out, it.cursor);
    if Cancelled !in rounds {
      NeverCancelled(rounds, 0, KeysInReach(view, c, opts));
    }
    hide Walking, Sliceable, Shows, ShowsKey, Dangling, Allowed, KeysInReach, ReplayOrder, LeastOf, KeysAbove, Landing;
    while true
      invariant err.None? && count == |out| && round <= |rounds|
      invariant it.snapshot == view && it.prefix == IndexPrefix(c)
      invariant Walking(view, c, opts, rounds, round, out, it.cursor)
      decreases opts.max - count + |rounds| - round
    {
      if count >= opts.max {
        WalkEnds(view, c, opts, rounds, round, out, it.cursor);
        return;
      }
      var now := if round < |rounds| then rounds[round] else Idle;
      if now == Cancelled {
        WalkEnds(view, c, opts, rounds, round, out, it.cursor);
        return;
      }
      if now == Notified {
        WalkWaits(view, c, opts, rounds, round, out, it.cursor);
        round := round + 1;
        continue;
      }
      if !it.Valid() {
        WalkEnds(view, c, opts, rounds, round, out, it.cursor);
        return;
      }
      NextItem(view, c, opts, rounds, round, out, it.cursor);
      var msg := MessageOf(view, c, opts.KeysOnly(), it.cursor.value);
      if msg.None? {
        WalkFails(view, c, opts, rounds, round, out, it.cursor);
        err := Some(KeyNotFound);
        return;
      }
      WalkShows(view, c, opts, rounds, round, out, it.cursor, msg.value);
      it.Next();
      out := out + [msg.value];
      count := count + 1;
      round := if round < |rounds| then round + 1 else round;
    }
  }
}

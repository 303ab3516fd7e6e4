/** Once its context is cancelled, the reader publishes nothing more and returns; and it returns
    for no other reason than that or its limit. */
module Cancellation {
  import opened Database
  import opened LiveFeed
  import opened Reader
  import opened ReaderInvariant
  import opened StreamOptions

  ghost function Backlog(w: World): nat {
    w.queued + (if w.offered then 1 else 0) + |w.resets|
  }

  ghost function Rank(p: Phase): nat {
    match p
    case Fresh => 5
    case Starting => 4
    case Iterating(_, _) => 3
    case Parked(_) => 1
    case Returned => 0
  }

  /** Lexicographic in backlog, dirty flag (while it matters) and phase, as one number. */
  ghost function Remaining(w: World): nat {
    12 * Backlog(w) + (if w.r.phase.Iterating? && w.r.dirty then 6 else 0) + Rank(w.r.phase)
  }

  /** The reader can really make this move: its select picks a case that is ready. */
  ghost predicate Ready(w: World, pick: Pick) {
    match w.r.phase
    case Fresh => true
    case Starting => true
    case Iterating(_, _) =>
      w.r.count >= w.r.max
      || (match pick case PickCancel => w.cancelled case PickNotify => w.offered case PickReset => w.resets != [])
    case Parked(_) => (pick.PickCancel? && w.cancelled) || (pick.PickNotify? && w.offered)
    case Returned => false
  }

  /** How many of the moves in `es` the reader really makes. */
  ghost function MovesMade(w: World, es: seq<Event>): nat {
    if es == [] then 0
    else
      var n := |es| - 1;
      var last := Run(w, es[..n]);
      MovesMade(w, es[..n]) + if es[n].Move? && Ready(last, es[n].pick) then 1 else 0
  }

  /** How many writes and resets arrive in `es`; only these can add to the backlog. */
  function Arrivals(es: seq<Event>): nat {
    if es == [] then 0
    else
      var n := |es| - 1;
      Arrivals(es[..n]) + if es[n].Write? || es[n].RequestReset? then 1 else 0
  }

  lemma CancelledSelect(w: World, pick: Pick)
    requires w.cancelled && w.r.phase.Iterating? && w.r.count < w.r.max
    ensures var w' := Select(w, pick, w.r.phase.view);
            && w'.r.out == w.r.out
            && (if Ready(w, pick) then Remaining(w') < Remaining(w) else w' == w)
  {
    hide SeekOf;
  }

  lemma CancelledMove(w: World, pick: Pick)
    requires w.cancelled
    ensures Moved(w, pick).r.out == w.r.out
    ensures if Ready(w, pick) then Remaining(Moved(w, pick)) < Remaining(w) else Moved(w, pick) == w
  {
    if w.r.phase.Iterating? && w.r.count < w.r.max {
      CancelledSelect(w, pick);
      hide Select, Remaining, Advance;
    } else {
      hide SeekOf;
    }
  }

  lemma CancelledStep(w: World, e: Event)
    requires w.cancelled
    ensures Step(w, e).cancelled && Step(w, e).r.out == w.r.out
    ensures Remaining(Step(w, e)) + (if e.Move? && Ready(w, e.pick) then 1 else 0)
            <= Remaining(w) + if e.Write? || e.RequestReset? then 12 else 0
  {
    if e.Move? {
      CancelledMove(w, e.pick);
      StepFrame(w, e);
      hide Moved, Ready, Remaining;
    }
  }

  /** No select after the cancellation publishes anything, and however the ready cases are picked
      the reader makes no more moves than its backlog allows. */
  lemma {:induction false} CancelledRun(w: World, es: seq<Event>)
    requires w.cancelled
    ensures Run(w, es).cancelled && Run(w, es).r.out == w.r.out
    ensures MovesMade(w, es) + Remaining(Run(w, es)) <= Remaining(w) + 12 * Arrivals(es)
  {
    if es == [] {
    } else {
      var n := |es| - 1;
      hide Step, Remaining, Ready;
      CancelledRun(w, es[..n]);
      CancelledStep(Run(w, es[..n]), es[n]);
    }
  }

  /** A cancelled reader that has not returned always has a move to make, and one that nobody
      notifies returns by its own moves within the bound that its state gives. */
  lemma {:induction false} CancelledReturns(w: World)
    requires w.cancelled
    ensures !w.r.phase.Returned? ==> Ready(w, PickCancel)
    ensures Run(w, seq(Remaining(w), _ => Move(PickCancel))).r.phase.Returned?
  {
    StraightReturn(w, Remaining(w));
  }

  lemma {:induction false} StraightReturn(w: World, n: nat)
    requires w.cancelled
    ensures var w' := Run(w, seq(n, _ => Move(PickCancel)));
            w'.cancelled && (w'.r.phase.Returned? || Remaining(w') + n <= Remaining(w))
  {
    if n == 0 {
    } else {
      var es := seq(n, _ => Move(PickCancel));
      assert es[..n - 1] == seq(n - 1, _ => Move(PickCancel));
      StraightReturn(w, n - 1);
      var w' := Run(w, es[..n - 1]);
      if w'.r.phase.Returned? {
        assert Step(w', es[n - 1]) == w';
      } else {
        assert Ready(w', PickCancel);
        hide Step, Remaining, Ready;
        CancelledStep(w', es[n - 1]);
      }
    }
  }

  // ---------- Why a reader returns, and its limit ----------

  ghost predicate ReturnOK(w: World) {
    w.r.phase.Returned? ==> w.cancelled || w.r.count >= w.r.max
  }

  lemma StepKeepsReturn(w: World, e: Event)
    requires ReturnOK(w)
    ensures ReturnOK(Step(w, e))
  {
    hide SeekOf, Landing, LeastOf;
  }

  /** A reader that has returned was cancelled or had reached its limit. */
  lemma {:induction false} ReturnsOnlyForAReason(w: World, opts: StreamOpts, es: seq<Event>)
    requires Initial(w, opts)
    ensures ReturnOK(Run(w, es))
  {
    if es == [] {
    } else {
      var n := |es| - 1;
      hide Step, ReturnOK;
      ReturnsOnlyForAReason(w, opts, es[..n]);
      StepKeepsReturn(Run(w, es[..n]), es[n]);
    }
  }

  /** Once the count has reached the limit the reader publishes nothing and returns within two
      moves, whatever else is ready. */
  lemma {:induction false} LimitStops(w: World, opts: StreamOpts, es: seq<Event>, p: Pick, q: Pick)
    requires Initial(w, opts) && LawfulRun(es)
    requires Run(w, es).r.count >= Run(w, es).r.max && !Run(w, es).r.phase.Fresh?
    ensures var w' := Moved(Moved(Run(w, es), p), q); w'.r.phase.Returned? && w'.r.out == Run(w, es).r.out
  {
    ReachedInv(w, opts, es);
    var w' := Run(w, es);
    assert !w'.r.phase.Parked?;
    hide *;
    AtLimitStops(w', p, q);
  }

  lemma AtLimitStops(w: World, p: Pick, q: Pick)
    requires w.r.count >= w.r.max && !w.r.phase.Fresh? && !w.r.phase.Parked?
    ensures var w' := Moved(Moved(w, p), q); w'.r.phase.Returned? && w'.r.out == w.r.out
  {
    AtLimitMoves(w, p);
    AtLimitMoves(Moved(w, p), q);
    hide Moved;
  }

  lemma AtLimitMoves(w: World, p: Pick)
    requires w.r.count >= w.r.max && !w.r.phase.Fresh? && !w.r.phase.Parked?
    ensures var w' := Moved(w, p);
            && w'.r.out == w.r.out && w'.r.count >= w'.r.max
            && (if w.r.phase.Starting? then w'.r.phase.Iterating? else w'.r.phase.Returned?)
  {
    hide Landing;
  }
}

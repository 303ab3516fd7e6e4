/** A channel's table of subscribers: one unfinished reader per target ID. */
module Registry {
  import opened Messages
  import opened StreamOptions

  type UUID = string

  // ---------- On values ----------

  /** Readers are numbered in the order in which they were started; `targets` lists their target
      IDs and `running` those that have not passed `unsubscribe`. */
  datatype Table = Table(subscribers: map<UUID, nat>, targets: seq<UUID>, running: set<nat>)

  datatype Event = Subscribe(id: UUID) | Unsubscribe(reader: nat)

  /** A target that is registered already has its reader reset instead. */
  function Subscribed(t: Table, id: UUID): Table {
    if id in t.subscribers then t
    else Table(t.subscribers[id := |t.targets|], t.targets + [id], t.running + {|t.targets|})
  }

  /** A reader's deferred exit: it deletes whatever is registered under its own target ID. */
  function Unsubscribed(t: Table, reader: nat): Table {
    if reader in t.running && reader < |t.targets|
    then t.(subscribers := t.subscribers - {t.targets[reader]}, running := t.running - {reader})
    else t
  }

  function Step(t: Table, e: Event): Table {
    match e
    case Subscribe(id) => Subscribed(t, id)
    case Unsubscribe(reader) => Unsubscribed(t, reader)
  }

  function Run(t: Table, es: seq<Event>): Table {
    if es == [] then t else Step(Run(t, es[..|es| - 1]), es[|es| - 1])
  }

  /** The table holds exactly the unfinished readers, each under its target ID, so there is at
      most one for each target. */
  ghost predicate Exact(t: Table) {
    && (forall n :: n in t.running ==> n < |t.targets|)
    && (forall id :: id in t.subscribers ==> t.subscribers[id] in t.running && t.targets[t.subscribers[id]] == id)
    && (forall n :: n in t.running ==> t.targets[n] in t.subscribers && t.subscribers[t.targets[n]] == n)
  }

  lemma SubscribedStaysExact(t: Table, id: UUID)
    requires Exact(t)
    ensures Exact(Subscribed(t, id))
  {
  }

  lemma UnsubscribedStaysExact(t: Table, reader: nat)
    requires Exact(t)
    ensures Exact(Unsubscribed(t, reader))
    ensures forall other :: reader in t.running && other in t.running && other != reader ==>
              && other in Unsubscribed(t, reader).running
              && t.targets[other] in Unsubscribed(t, reader).subscribers
              && t.targets[reader] !in Unsubscribed(t, reader).subscribers
  {
  }

  /** This holds in every interleaving of subscriptions and exits, and an exiting reader removes
      itself and nobody else. */
  lemma {:induction false} TableIsExact(es: seq<Event>)
    ensures Exact(Run(Table(map[], [], {}), es))
    ensures forall reader, other ::
              var t := Run(Table(map[], [], {}), es);
              reader in t.running && other in t.running && other != reader ==>
                && other in Unsubscribed(t, reader).running
                && t.targets[other] in Unsubscribed(t, reader).subscribers
                && t.targets[reader] !in Unsubscribed(t, reader).subscribers
  {
    var start := Table(map[], [], {});
    if es == [] {
    } else {
      var n := |es| - 1;
      hide Exact;
      TableIsExact(es[..n]);
      var t := Run(start, es[..n]);
      match es[n]
      case Subscribe(id) => SubscribedStaysExact(t, id);
      case Unsubscribe(reader) => UnsubscribedStaysExact(t, reader);
    }
    hide Unsubscribed;
    forall reader: nat | reader in Run(start, es).running {
      UnsubscribedStaysExact(Run(start, es), reader);
    }
  }

  // ---------- As objects ----------

  class Subscriber {
    const id: UUID
    const serial: nat
    const fromIndex: bool
    var resets: seq<Option<StreamOpts>>

    constructor (id: UUID, serial: nat, fromIndex: bool)
      ensures this.id == id && this.serial == serial && this.fromIndex == fromIndex && resets == []
    {
      this.id, this.serial, this.fromIndex, resets := id, serial, fromIndex, [];
    }
  }

  class Channel {
    var subscribers: map<UUID, Subscriber>
    var serials: nat
    ghost var started: seq<Subscriber>
    ghost var running: set<nat>

    ghost predicate Valid()
      reads this
    {
      && serials == |started|
      && (forall n :: 0 <= n < |started| ==> started[n].serial == n)
      && (forall id :: id in subscribers ==>
            subscribers[id].serial < |started| && started[subscribers[id].serial] == subscribers[id])
      && Exact(View())
    }

    ghost function View(): Table
      reads this
    {
      Table(map id | id in subscribers :: subscribers[id].serial,
            seq(|started|, n requires 0 <= n < |started| reads this => started[n].id), running)
    }

    constructor ()
      ensures Valid() && View() == Table(map[], [], {})
    {
      subscribers, serials, started, running := map[], 0, [], {};
    }

    /** Starts a reader for a new target, the index reader if the options say so; a target that
        is there gets its reader reset with whatever it is given, nil included. Nil options for a
        new target have no result: the program ends there, dereferencing nil. */
    method Subscribe(id: UUID, opts: Option<StreamOpts>) returns (sub: Option<Subscriber>)
      requires Valid()
      modifies this, subscribers.Values
      ensures Valid()
      ensures sub.None? <==> id !in old(subscribers) && opts.None?
      ensures View() == if sub.None? then old(View()) else Subscribed(old(View()), id)
      ensures sub.Some? ==> id in subscribers && subscribers[id] == sub.value
      ensures id in old(subscribers) && sub.Some? ==>
                sub.value == old(subscribers[id]) && sub.value.resets == old(subscribers[id].resets) + [opts]
      ensures id !in old(subscribers) && sub.Some? ==>
                fresh(sub.value) && sub.value.fromIndex == opts.value.FromIndex() && sub.value.resets == []
      ensures forall s: Subscriber :: s in old(subscribers.Values) && Some(s) != sub ==> s.resets == old(s.resets)
    {
      if id in subscribers {
        var there := subscribers[id];
        there.resets := there.resets + [opts];
        return Some(there);
      }
      if opts.None? {
        return None;
      }
      var added := new Subscriber(id, serials, opts.value.FromIndex());
      Register(added);
      sub := Some(added);
    }

    method Register(sub: Subscriber)
      requires Valid() && sub.serial == serials && sub.id !in subscribers
      modifies `subscribers, `serials, `started, `running
      ensures Valid() && View() == Subscribed(old(View()), sub.id)
      ensures subscribers == old(subscribers)[sub.id := sub]
    {
      hide Exact;
      SubscribedStaysExact(View(), sub.id);
      subscribers := subscribers[sub.id := sub];
      started := started + [sub];
      running := running + {serials};
      serials := serials + 1;
      assert View().subscribers == old(View()).subscribers[sub.id := sub.serial];
      assert View().targets == old(View()).targets + [sub.id];
    }

    /** What a reader does when it ends, by whatever way. */
    method Unsubscribe(sub: Subscriber)
      requires Valid() && sub.serial in running && started[sub.serial] == sub
      modifies `subscribers, `running
      ensures Valid() && View() == Unsubscribed(old(View()), sub.serial)
      ensures subscribers == old(subscribers) - {sub.id}
    {
      assert View().targets[sub.serial] == sub.id;
      subscribers := subscribers - {sub.id};
      running := running - {sub.serial};
      assert View().subscribers == old(View()).subscribers - {sub.id};
      assert View().targets == old(View()).targets;
    }
  }
}

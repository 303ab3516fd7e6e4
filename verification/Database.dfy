/** The ordered key/value database under the store: immutable snapshots, and the forward and
    reverse iterators that walk one snapshot. */
module Database {
  import opened ByteStrings
  import opened Messages

  datatype Value = Stored(msg: Msg) | Nothing

  /** The committed contents at one moment. A transaction works on one of these. */
  type Snapshot = map<Bytes, Value>

  /** `proto.Unmarshal` of a stored value: the empty value decodes to the empty message. */
  function Unmarshal(v: Value): Msg {
    match v
    case Stored(msg) => msg
    case Nothing => EMPTY_MSG
  }

  // ---------- What a forward iterator finds ----------

  ghost function KeysFrom(keys: set<Bytes>, target: Bytes): set<Bytes> {
    set k | k in keys && AtMost(target, k)
  }

  ghost function KeysAbove(keys: set<Bytes>, key: Bytes): set<Bytes> {
    set k | k in keys && Less(key, k)
  }

  ghost function LeastOf(keys: set<Bytes>): (r: Option<Bytes>)
    ensures r.None? <==> keys == {}
    ensures r.Some? ==> r.value in keys && forall k :: k in keys ==> AtMost(r.value, k)
  {
    if keys == {} then None else Some(Least(keys))
  }

  /** Where a prefix iterator goes for a seek key: an empty key means the start of the prefix. */
  function SeekTarget(seek: Bytes, prefix: Bytes): Bytes {
    if seek == [] then prefix else seek
  }

  /** Where `Seek` lands: the lower bound over the whole database, whatever its prefix. */
  ghost function Landing(keys: set<Bytes>, seek: Bytes, prefix: Bytes): Option<Bytes> {
    LeastOf(KeysFrom(keys, SeekTarget(seek, prefix)))
  }

  predicate OnPrefix(at: Option<Bytes>, prefix: Bytes) {
    at.Some? && prefix <= at.value
  }

  /** A key of another keyspace lies between the seek key and the prefix. `Seek` lands on it, so
      the iterator is invalid although the prefix may hold keys further on. */
  ghost predicate Blocked(keys: set<Bytes>, seek: Bytes, prefix: Bytes) {
    exists k :: k in keys && AtMost(SeekTarget(seek, prefix), k) && Less(k, prefix)
  }

  /** All keys of `prefix`. */
  ghost function Matching(keys: set<Bytes>, prefix: Bytes): set<Bytes> {
    set k | k in keys && prefix <= k
  }

  /** The keys of `prefix` at or after the seek position. */
  ghost function InRange(keys: set<Bytes>, seek: Bytes, prefix: Bytes): set<Bytes> {
    set k | k in keys && prefix <= k && AtMost(SeekTarget(seek, prefix), k)
  }

  /** A seek key that is empty or not below the prefix is never blocked. */
  lemma SeekInsideIsUnblocked(keys: set<Bytes>, seek: Bytes, prefix: Bytes)
    requires seek == [] || !Less(seek, prefix)
    ensures !Blocked(keys, seek, prefix)
  {
    StrictTotalOrder();
  }

  /** An iterator that is off the prefix has nothing of the prefix ahead of it, unless the seek
      was blocked. */
  lemma OffPrefixIsExhausted(keys: set<Bytes>, seek: Bytes, prefix: Bytes, at: Option<Bytes>)
    requires at.Some? ==> at.value in keys && AtMost(SeekTarget(seek, prefix), at.value)
    requires !OnPrefix(at, prefix) && !Blocked(keys, seek, prefix)
    ensures forall k :: k in keys && prefix <= k ==> !(at.Some? && AtMost(at.value, k))
  {
    if at.Some? {
      forall k | k in keys && prefix <= k ensures !AtMost(at.value, k) {
        if AtMost(at.value, k) {
          StrictTotalOrder();
          assert AtMost(prefix, at.value);
          PrefixConvex(prefix, prefix, at.value, k);
        }
      }
    }
  }

  /** The seek is blocked exactly when the iterator starts invalid below its own prefix; then a
      scan yields nothing at all. */
  lemma BlockedLandsBelow(keys: set<Bytes>, seek: Bytes, prefix: Bytes)
    ensures Blocked(keys, seek, prefix) <==>
              Landing(keys, seek, prefix).Some? && Less(Landing(keys, seek, prefix).value, prefix)
    ensures Blocked(keys, seek, prefix) ==> !OnPrefix(Landing(keys, seek, prefix), prefix)
  {
    StrictTotalOrder();
    var at := Landing(keys, seek, prefix);
    if OnPrefix(at, prefix) {
      PrefixAtMost(prefix, at.value);
    }
    if Blocked(keys, seek, prefix) {
      var k :| k in keys && AtMost(SeekTarget(seek, prefix), k) && Less(k, prefix);
      assert k in KeysFrom(keys, SeekTarget(seek, prefix));
    }
  }

  /** The least element is the only one that is a lower bound of the set. */
  lemma LeastIsUnique(keys: set<Bytes>, m: Bytes)
    requires m in keys && forall k :: k in keys ==> AtMost(m, k)
    ensures LeastOf(keys) == Some(m)
  {
    StrictTotalOrder();
  }

  /** A forward iterator over one snapshot, restricted to a prefix. */
  class Iterator {
    const snapshot: Snapshot
    const prefix: Bytes
    var cursor: Option<Bytes>

    constructor (snapshot: Snapshot, prefix: Bytes)
      ensures this.snapshot == snapshot && this.prefix == prefix
    {
      this.snapshot, this.prefix, cursor := snapshot, prefix, None;
    }

    method Seek(key: Bytes)
      modifies this
      ensures cursor == Landing(snapshot.Keys, key, prefix)
    {
      var target := SeekTarget(key, prefix);
      MoveTo(set k | k in snapshot && AtMost(target, k));
    }

    predicate Valid()
      reads this
    {
      OnPrefix(cursor, prefix)
    }

    method Next()
      requires Valid()
      modifies this
      ensures cursor == LeastOf(KeysAbove(snapshot.Keys, old(cursor).value))
    {
      var current := cursor.value;
      MoveTo(set k | k in snapshot && Less(current, k));
    }

    method MoveTo(ahead: set<Bytes>)
      modifies this
      ensures cursor == LeastOf(ahead)
    {
      if ahead == {} {
        cursor := None;
      } else {
        LeastExists(ahead);
        var m :| m in ahead && forall k :: k in ahead ==> AtMost(m, k);
        LeastIsUnique(ahead, m);
        cursor := Some(m);
      }
    }
  }

  // ---------- What a reverse iterator finds ----------

  /** `k` is the greatest element of `keys`, or `keys` is empty. */
  ghost predicate IsGreatest(keys: set<Bytes>, r: Option<Bytes>) {
    if keys == {} then r.None? else r.Some? && r.value in keys && forall k :: k in keys ==> AtMost(k, r.value)
  }

  lemma {:induction false} GreatestExists(s: set<Bytes>)
    requires s != {}
    ensures exists m :: m in s && forall k :: k in s ==> AtMost(k, m)
  {
    var x :| x in s;
    if s == {x} {
    } else {
      GreatestExists(s - {x});
      var m :| m in s - {x} && forall k :: k in s - {x} ==> AtMost(k, m);
      StrictTotalOrder();
      var greatest := if Less(m, x) then x else m;
      assert forall k :: k in s ==> k == x || k in s - {x};
      assert greatest in s && forall k :: k in s ==> AtMost(k, greatest);
    }
  }

  ghost function GreatestOf(keys: set<Bytes>): (r: Option<Bytes>)
    ensures IsGreatest(keys, r)
  {
    if keys == {} then None
    else
      GreatestExists(keys);
      var m :| m in keys && forall k :: k in keys ==> AtMost(k, m);
      Some(m)
  }

  lemma GreatestIsUnique(keys: set<Bytes>, r: Option<Bytes>)
    requires IsGreatest(keys, r)
    ensures GreatestOf(keys) == r
  {
    StrictTotalOrder();
  }

  ghost function KeysBelow(keys: set<Bytes>, key: Bytes): set<Bytes> {
    set k | k in keys && Less(k, key)
  }

  /** A reverse iterator over a whole snapshot. */
  class ReverseIterator {
    const snapshot: Snapshot
    var cursor: Option<Bytes>

    constructor (snapshot: Snapshot)
      ensures this.snapshot == snapshot
    {
      this.snapshot, cursor := snapshot, None;
    }

    method Rewind()
      modifies this
      ensures IsGreatest(snapshot.Keys, cursor)
    {
      MoveTo(snapshot.Keys);
    }

    predicate Valid()
      reads this
    {
      cursor.Some?
    }

    predicate ValidForPrefix(prefix: Bytes)
      reads this
    {
      OnPrefix(cursor, prefix)
    }

    method Next()
      requires Valid()
      modifies this
      ensures IsGreatest(KeysBelow(snapshot.Keys, old(cursor).value), cursor)
    {
      var current := cursor.value;
      MoveTo(set k | k in snapshot && Less(k, current));
    }

    method MoveTo(ahead: set<Bytes>)
      modifies this
      ensures IsGreatest(ahead, cursor)
    {
      if ahead == {} {
        cursor := None;
      } else {
        GreatestExists(ahead);
        var m :| m in ahead && forall k :: k in ahead ==> AtMost(k, m);
        cursor := Some(m);
      }
    }
  }
}

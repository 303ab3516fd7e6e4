/** What one write to the store does to the database: the specification of `Append` and `Upsert`
    on snapshots, including every way a write can fail. */
module Transactions {
  import opened ByteStrings
  import opened Database
  import opened Keys
  import opened Messages

  /** Failures that the surroundings decide: encoding, the database calls, a commit conflict. */
  datatype Fault = NoFault | MarshalFault | GetFault | SetEntryFault | SetIndexFault | CommitFault

  datatype Error = InvalidEntryID | KeyExists | KeyNotFound | Failed(fault: Fault)

  datatype Op =
    | Append(channel: ChannelID, entry: Msg, seconds: Seconds, fault: Fault)
    | Upsert(key: Bytes, entry: Msg, fault: Fault)

  /** The error a write reports, in the order in which the code can meet them. */
  function Outcome(db: Snapshot, op: Op): Option<Error> {
    match op
    case Append(c, entry, _, fault) =>
      if EntryID(entry).None? then Some(InvalidEntryID)
      else if fault == MarshalFault || fault == GetFault then Some(Failed(fault))
      else if EntryKey(c, EntryID(entry).value) in db then Some(KeyExists)
      else if fault != NoFault then Some(Failed(fault))
      else None
    case Upsert(_, _, fault) =>
      if fault == MarshalFault || fault == SetEntryFault || fault == CommitFault then Some(Failed(fault)) else None
  }

  /** The key that `Append` hands back: mostly the arrival key, also beside an error. */
  function ReturnedKey(op: Op): Option<Bytes>
    requires op.Append?
  {
    if EntryID(op.entry).None? then None
    else if op.fault == MarshalFault then Some(EntryKey(op.channel, EntryID(op.entry).value))
    else Some(ArrivalKey(op.channel, EntryID(op.entry).value, op.seconds))
  }

  /** The database after the write. */
  function Apply(db: Snapshot, op: Op): Snapshot {
    if Outcome(db, op).Some? then db
    else match op
      case Append(c, entry, seconds, _) =>
        var id := EntryID(entry).value;
        db[EntryKey(c, id) := Stored(entry)][ArrivalKey(c, id, seconds) := Nothing]
      case Upsert(key, entry, _) => db[key := Stored(entry)]
  }

  /** The database after a run of writes by any callers on any channels. */
  function ApplyAll(db: Snapshot, ops: seq<Op>): Snapshot {
    if ops == [] then db else Apply(ApplyAll(db, ops[..|ops| - 1]), ops[|ops| - 1])
  }

  /** `Upsert` is used for keys outside every channel, like the host's snapshot key. */
  predicate Lawful(op: Op) {
    op.Upsert? ==> Foreign(op.key)
  }

  predicate AllLawful(ops: seq<Op>) {
    forall i :: 0 <= i < |ops| ==> Lawful(ops[i])
  }

  /** The channel's greatest entry key, or nothing for a channel without entries. */
  ghost function HeadKey(keys: set<Bytes>, prefix: Bytes): Option<Bytes> {
    GreatestOf(Matching(keys, prefix))
  }
}

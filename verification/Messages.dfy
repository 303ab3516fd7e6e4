/** Optional values, the protocol messages kept in the store and sent to clients, and the errors
    that the layers report. */
module Messages {
  import opened ByteStrings

  datatype Option<+T> = None | Some(value: T)

  /** Request and stream identifiers are chosen by the client and travel as 32-bit integers. */
  type ReqID = x: int | -0x8000_0000 <= x < 0x8000_0000

  /** `entryID` is absent when the field was never set: the only case the store calls invalid. */
  datatype EntryHeader = EntryHeader(
    entryID: Option<Bytes>,
    memberID: Bytes,
    parentID: Bytes,
    entryCodec: string,
    feedURI: string)

  datatype MsgOp = FeedEntry | ReqComplete | ReqDiscarded | FeedReqStatus

  datatype StatusCode = InfoMsg | Working

  datatype ErrCode = InvalidRequest | InvalidFeedURI | DatabaseError

  datatype Msg = Msg(
    op: MsgOp,
    reqID: ReqID,
    header: Option<EntryHeader>,
    body: Bytes,
    status: Option<StatusCode>,
    err: Option<ErrCode>)

  /** What `&pb.Msg{}` denotes; also what an empty value unmarshals to. */
  const EMPTY_MSG := Msg(FeedEntry, 0, None, [], None, None)

  /** A message that carries nothing but an entry ID. */
  function IDOnly(id: Bytes): Msg {
    EMPTY_MSG.(header := Some(EntryHeader(Some(id), [], [], "", "")))
  }

  /** `entry.GetEntryHeader().GetEntryID()`. */
  function EntryID(entry: Msg): Option<Bytes> {
    if entry.header.None? then None else entry.header.value.entryID
  }

  /** `entry.GetEntryHeader().GetFeedURI()`. */
  function FeedURI(entry: Msg): string {
    if entry.header.None? then "" else entry.header.value.feedURI
  }
}

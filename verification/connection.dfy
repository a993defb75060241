/** The lag check of `BackendConnection`. The ring behind a connection is
    represented only by its two sequence counters: the writer's `write_id`
    and this reader's `read_id`. */
module Connection {

  /** Slot count of the ring every connection is created with. */
  const TABLE_SIZE: nat := 8192

  datatype RingCounters = RingCounters(readId: int, writeId: int)

  function GetReadId(c: RingCounters): int { c.readId }

  function GetWriteId(c: RingCounters): int { c.writeId }

  /** How many records the reader trails the writer by. */
  function Lag(c: RingCounters): int { GetWriteId(c) - GetReadId(c) }

  /** `is_full_read`: the reader is caught up, allowing it to trail the
      writer by at most `bufferSize` records. */
  function IsFullRead(c: RingCounters, bufferSize: int := 0): (r: bool)
    ensures r <==> Lag(c) <= bufferSize
  {
    GetReadId(c) >= GetWriteId(c) - bufferSize
  }

  /** With the default window of zero, full read means the reader has
      reached the writer. */
  lemma DefaultWindowIsCaughtUp(c: RingCounters)
    ensures IsFullRead(c) <==> c.readId >= c.writeId
    ensures c.readId == c.writeId ==> IsFullRead(c)
    ensures c.readId + 1 == c.writeId ==> !IsFullRead(c)
  {
  }

  /** The comparison is inclusive: trailing by exactly `bufferSize` records
      is still full read, trailing by one more is not. */
  lemma WindowBoundary(readId: int, bufferSize: int)
    ensures IsFullRead(RingCounters(readId, readId + bufferSize), bufferSize)
    ensures !IsFullRead(RingCounters(readId, readId + bufferSize + 1), bufferSize)
  {
  }

  /** A window as wide as the ring accepts any reader at most one full ring
      behind, and no reader further behind. */
  lemma TableSizeWindow(c: RingCounters)
    ensures IsFullRead(c, TABLE_SIZE) <==> c.writeId - c.readId <= 8192
  {
  }

  /** Widening the window never turns a full read into a lagging one. */
  lemma WiderWindowAccepts(c: RingCounters, narrow: int, wide: int)
    requires narrow <= wide
    ensures IsFullRead(c, narrow) ==> IsFullRead(c, wide)
    ensures !IsFullRead(c, wide) ==> !IsFullRead(c, narrow)
  {
  }

  /** Advancing the reader's cursor never turns a full read into a lagging
      one, and neither does holding the writer back. */
  lemma ProgressKeepsFullRead(c: RingCounters, readId': int, writeId': int, bufferSize: int)
    requires c.readId <= readId' && writeId' <= c.writeId
    ensures IsFullRead(c, bufferSize) ==> IsFullRead(RingCounters(readId', writeId'), bufferSize)
  {
  }
}

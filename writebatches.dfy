/**
 * The write batch: an ordered log of put and delete records, replayed
 * through a caller's visitor in append order and applied to a table by Write.
 */
module WriteBatches {
  import opened Wrappers
  import opened ByteStrings

  datatype Record = Put(key: Bytes, value: Bytes) | Delete(key: Bytes)

  /**
   * One callback invocation for record r. The C visitor is a `void* state`
   * and two function pointers that update what state points to; here each
   * callback maps the old state to the new one.
   */
  function Visit<S>(r: Record, s: S, put: (S, Bytes, Bytes) -> S, deleted: (S, Bytes) -> S): S
  {
    match r
    case Put(k, v) => put(s, k, v)
    case Delete(k) => deleted(s, k)
  }

  /** The visitor's state once it has seen every record of the log, first record first. */
  function Replay<S>(log: seq<Record>, s: S, put: (S, Bytes, Bytes) -> S, deleted: (S, Bytes) -> S): S
    decreases |log|
  {
    if log == [] then s
    else Visit(log[|log| - 1], Replay(log[..|log| - 1], s, put, deleted), put, deleted)
  }

  /** A visitor that writes down each callback it receives. */
  function RecordPut(trace: seq<Record>, k: Bytes, v: Bytes): seq<Record>
  {
    trace + [Put(k, v)]
  }

  function RecordDeleted(trace: seq<Record>, k: Bytes): seq<Record>
  {
    trace + [Delete(k)]
  }

  /**
   * Replay makes exactly one callback per record, of the record's own kind,
   * in append order: puts and deletes stay interleaved as appended.
   */
  lemma {:induction false} ReplayVisitsInAppendOrder(log: seq<Record>, trace: seq<Record>)
    ensures Replay(log, trace, RecordPut, RecordDeleted) == trace + log
    decreases |log|
  {
    if log != [] {
      var init, last := log[..|log| - 1], log[|log| - 1];
      ReplayVisitsInAppendOrder(init, trace);
      assert log == init + [last];
      match last
      case Put(k, v) =>
      case Delete(k) =>
    }
  }

  /** The effect of one record on a table. */
  function Step(m: map<Bytes, Bytes>, r: Record): map<Bytes, Bytes>
  {
    match r
    case Put(k, v) => m[k := v]
    case Delete(k) => m - {k}
  }

  /** The table after every record of the log has taken effect, in order. */
  function Apply(m: map<Bytes, Bytes>, log: seq<Record>): map<Bytes, Bytes>
    decreases |log|
  {
    if log == [] then m else Step(Apply(m, log[..|log| - 1]), log[|log| - 1])
  }

  /** The visitor Write uses to insert a batch into the table. */
  function Insert(m: map<Bytes, Bytes>, k: Bytes, v: Bytes): map<Bytes, Bytes>
  {
    m[k := v]
  }

  function Erase(m: map<Bytes, Bytes>, k: Bytes): map<Bytes, Bytes>
  {
    m - {k}
  }

  /** Writing a batch is replaying it through the table-inserting visitor. */
  lemma {:induction false} ApplyIsReplay(m: map<Bytes, Bytes>, log: seq<Record>)
    ensures Apply(m, log) == Replay(log, m, Insert, Erase)
    decreases |log|
  {
    if log != [] {
      ApplyIsReplay(m, log[..|log| - 1]);
    }
  }

  /** The last record of the log that names key k. */
  function LastWrite(log: seq<Record>, k: Bytes): Option<Record>
    decreases |log|
  {
    if log == [] then None
    else if log[|log| - 1].key == k then Some(log[|log| - 1])
    else LastWrite(log[..|log| - 1], k)
  }

  /**
   * After Write, each key is as the batch's last record for it says: the
   * value of its last put, absent after its last delete, and as before when
   * the batch does not name it.
   */
  lemma {:induction false} ApplyLastWriteWins(m: map<Bytes, Bytes>, log: seq<Record>, k: Bytes)
    ensures Lookup(Apply(m, log), k) ==
      match LastWrite(log, k)
      case None => Lookup(m, k)
      case Some(Put(_, v)) => Some(v)
      case Some(Delete(_)) => None
    decreases |log|
  {
    if log != [] {
      ApplyLastWriteWins(m, log[..|log| - 1], k);
    }
  }

  /** A write batch handle. */
  class WriteBatch {
    var records: seq<Record>

    constructor ()
      ensures records == []
    {
      records := [];
    }

    /** Removes every record appended so far. */
    method Clear()
      modifies this
      ensures records == []
    {
      records := [];
    }

    method Put(key: Bytes, value: Bytes)
      modifies this
      ensures records == old(records) + [Record.Put(key, value)]
    {
      records := records + [Record.Put(key, value)];
    }

    method Delete(key: Bytes)
      modifies this
      ensures records == old(records) + [Record.Delete(key)]
    {
      records := records + [Record.Delete(key)];
    }

    /**
     * Calls put or deleted once per record, in append order, threading the
     * visitor's state through the calls.
     */
    method Iterate<S>(state: S, put: (S, Bytes, Bytes) -> S, deleted: (S, Bytes) -> S) returns (s: S)
      ensures s == Replay(records, state, put, deleted)
    {
      s := state;
      var i := 0;
      while i < |records|
        invariant 0 <= i <= |records|
        invariant s == Replay(records[..i], state, put, deleted)
      {
        assert records[..i + 1][..i] == records[..i];
        match records[i] {
          case Put(k, v) => s := put(s, k, v);
          case Delete(k) => s := deleted(s, k);
        }
        i := i + 1;
      }
      assert records[..i] == records;
    }
  }
}

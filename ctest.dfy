/**
 * The C test's helpers and the expected traces of its writebatch, iter and
 * snapshot phases. A failed CheckCondition or CheckEqual aborts the test
 * process; the helpers here report that as a false result or as Aborted.
 */
module CTest {
  import opened Wrappers
  import opened ByteStrings
  import opened Comparator
  import opened ErrorChannel
  import opened WriteBatches
  import opened Cursor
  import opened Config
  import opened Database

  const Foo: Bytes := [0x66, 0x6f, 0x6f]                 // "foo"
  const Bar: Bytes := [0x62, 0x61, 0x72]                 // "bar"
  const Box: Bytes := [0x62, 0x6f, 0x78]                 // "box"
  const Hello: Bytes := [0x68, 0x65, 0x6c, 0x6c, 0x6f]   // "hello"
  const A: Bytes := [0x61]                               // "a"
  const B: Bytes := [0x62]                               // "b"
  const C: Bytes := [0x63]                               // "c"
  const Fake: Bytes := [0x66, 0x61, 0x6b, 0x65]          // "fake"

  /**
   * CheckEqual(expected, v, n): passes when both pointers are NULL, or both
   * are non-NULL and the n bytes at v are the C string expected; anything
   * else aborts. v's bytes are the ones readable at that pointer.
   */
  function CheckEqual(expected: Option<Bytes>, v: Option<Bytes>, n: nat): (ok: bool)
    requires expected.Some? ==> NoNul(expected.value)
    requires expected.Some? && v.Some? && n == |expected.value| ==> n <= |v.value|
    ensures ok <==>
      || (expected.None? && v.None?)
      || (expected.Some? && v.Some? && n == |expected.value| && v.value[..n] == expected.value)
  {
    if expected.None? && v.None? then true
    else expected.Some? && v.Some? && n == |expected.value| && Memcmp(expected.value, v.value, n) == 0
  }

  /** A buffer of exactly n bytes passes CheckEqual against s exactly when it is s. */
  lemma CheckEqualExact(expected: Bytes, v: Bytes)
    requires NoNul(expected)
    ensures CheckEqual(Some(expected), Some(v), |v|) <==> v == expected
  {
  }

  /** The integer the visitor's state pointer addresses, or the aborted process. */
  datatype Run = Running(pos: int) | Aborted

  /**
   * CheckPut: the first two callbacks must be put(bar, b) and put(box, c);
   * a counter already at 2 or more aborts, and a negative one matches no case.
   */
  function CheckPut(run: Run, k: Bytes, v: Bytes): (r: Run)
    ensures r.Running? <==>
      && run.Running?
      && (run.pos < 0 || (run.pos == 0 && k == Bar && v == B) || (run.pos == 1 && k == Box && v == C))
    ensures r.Running? ==> r.pos == run.pos + 1
  {
    CheckEqualExact(Bar, k);
    CheckEqualExact(B, v);
    CheckEqualExact(Box, k);
    CheckEqualExact(C, v);
    match run
    case Aborted => Aborted
    case Running(state) =>
      if !(state < 2) then Aborted
      else if state == 0 && !(CheckEqual(Some(Bar), Some(k), |k|) && CheckEqual(Some(B), Some(v), |v|)) then Aborted
      else if state == 1 && !(CheckEqual(Some(Box), Some(k), |k|) && CheckEqual(Some(C), Some(v), |v|)) then Aborted
      else Running(state + 1)
  }

  /** CheckDel: the third callback, and only the third, must be deleted(bar). */
  function CheckDel(run: Run, k: Bytes): (r: Run)
    ensures r.Running? <==> run == Running(2) && k == Bar
    ensures r.Running? ==> r == Running(3)
  {
    CheckEqualExact(Bar, k);
    match run
    case Aborted => Aborted
    case Running(state) =>
      if !(state == 2) then Aborted
      else if !CheckEqual(Some(Bar), Some(k), |k|) then Aborted
      else Running(state + 1)
  }

  /** The batch of the writebatch phase as it stands after its clear. */
  const TestBatch: seq<Record> := [Record.Put(Bar, B), Record.Put(Box, C), Record.Delete(Bar)]

  /** Each callback either aborts or advances the counter by one. */
  lemma {:induction false} CheckerCounts(log: seq<Record>, n: int)
    ensures var r := Replay(log, Running(n), CheckPut, CheckDel);
      r == Aborted || r == Running(n + |log|)
    decreases |log|
  {
    if log != [] {
      CheckerCounts(log[..|log| - 1], n);
    }
  }

  /**
   * Replaying a log through CheckPut/CheckDel from 0 ends at 3 exactly when
   * the log is put(bar, b), put(box, c), delete(bar) in that order.
   */
  lemma CheckerAcceptsExactlyTestBatch(log: seq<Record>)
    ensures Replay(log, Running(0), CheckPut, CheckDel) == Running(3) <==> log == TestBatch
  {
    var t1, t2 := TestBatch[..1], TestBatch[..2];
    assert TestBatch[..2][..1] == t1 && TestBatch[..3] == TestBatch;
    CheckEqualExact(Bar, Bar);
    CheckEqualExact(B, B);
    CheckEqualExact(Box, Box);
    CheckEqualExact(C, C);
    assert Replay(t1, Running(0), CheckPut, CheckDel) == Running(1);
    assert Replay(t2, Running(0), CheckPut, CheckDel) == Running(2);
    if Replay(log, Running(0), CheckPut, CheckDel) == Running(3) {
      CheckerCounts(log, 0);
      assert |log| == 3;
      var p1, p2 := log[..1], log[..2];
      assert log[..2][..1] == p1 && log[..3] == log;
      assert Replay(p2, Running(0), CheckPut, CheckDel) == Running(2) by {
        CheckerCounts(p2, 0);
      }
      assert Replay(p1, Running(0), CheckPut, CheckDel) == Running(1) by {
        CheckerCounts(p1, 0);
      }
      assert Replay(log[..0], Running(0), CheckPut, CheckDel) == Running(0) by {
        assert log[..1][..0] == [];
      }
      assert log[0] == Record.Put(Bar, B) by {
        assert p1[..0] == [];
        match log[0]
        case Put(k, v) => CheckEqualExact(Bar, k); CheckEqualExact(B, v);
        case Delete(k) =>
      }
      assert log[1] == Record.Put(Box, C) by {
        match log[1]
        case Put(k, v) => CheckEqualExact(Box, k); CheckEqualExact(C, v);
        case Delete(k) =>
      }
      assert log[2] == Record.Delete(Bar) by {
        match log[2]
        case Put(k, v) =>
        case Delete(k) => CheckEqualExact(Bar, k);
      }
      assert log == [log[0], log[1], log[2]];
    }
  }

  /** FilterCreate: whatever the keys, the filter is the four bytes "fake". */
  function FilterCreate(keys: seq<Bytes>): (filter: Bytes)
    ensures |filter| == 4
  {
    Fake
  }

  /**
   * FilterKeyMatch: aborts (None) unless the filter is the four bytes
   * "fake"; otherwise answers the test's current fake_filter_result.
   */
  function FilterKeyMatch(fakeFilterResult: byte, key: Bytes, filter: Bytes): (r: Option<byte>)
    ensures r == if filter == Fake then Some(fakeFilterResult) else None
  {
    if |filter| == 4 && Memcmp(filter, Fake, 4) == 0 then Some(fakeFilterResult) else None
  }

  /** The test's key_may_match never aborts on a filter its create_filter built. */
  lemma FilterMatchesOwnFilters(fakeFilterResult: byte, keys: seq<Bytes>, key: Bytes)
    ensures FilterKeyMatch(fakeFilterResult, key, FilterCreate(keys)) == Some(fakeFilterResult)
  {
  }

  /**
   * CheckGet: a get of the C string key, through these options and with a
   * fresh NULL error slot, passes exactly when the engine reports no error
   * (CheckNoError) and the view holds `expected` under key (NULL: absent).
   * The engine's outcome for this read is the parameter `fault`.
   */
  method CheckGet(db: Db, options: ReadOptions, key: Bytes, expected: Option<Bytes>, fault: Status) returns (ok: bool)
    requires db.Readable(options)
    requires NoNul(key)
    requires expected.Some? ==> NoNul(expected.value)
    ensures ok <==> fault.Ok? && Lookup(db.View(options), key) == expected
  {
    var err := new ErrSlot();
    var val, valLen := db.Get(options, key, fault, err);
    ok := err.message == None;
    assert val.Some? ==> val.value[..valLen] == val.value;
    if ok {
      ok := CheckEqual(expected, val, valLen);
    }
  }

  /** CheckIter: the entry at the cursor is (key, val). */
  method CheckIter(iter: Iterator, key: Bytes, val: Bytes) returns (ok: bool)
    requires iter.Valid() && iter.valid
    requires NoNul(key) && NoNul(val)
    ensures ok <==> iter.keys[iter.index] == key && iter.view[key] == val
  {
    var k := iter.Key();
    ok := CheckEqual(Some(key), Some(k), |k|);
    var v := iter.Value();
    ok := ok && CheckEqual(Some(val), Some(v), |v|);
    assert k[..|k|] == k && v[..|v|] == v;
  }

  /** For all key and value: a put followed by a get of the same key returns the value. */
  method PutThenGet(db: Db, wo: WriteOptions, key: Bytes, val: Bytes) returns (got: Option<Bytes>)
    modifies db
    ensures got == Some(val)
  {
    var err := new ErrSlot();
    db.Put(wo, key, val, Ok, err);
    var ro := new ReadOptions(false, true);
    var gotLen;
    got, gotLen := db.Get(ro, key, Ok, err);
  }

  /** The empty database after create_if_missing, then the put phase: foo -> hello. */
  method NewTestDb(wo: WriteOptions) returns (db: Db)
    ensures fresh(db) && db.contents == map[Foo := Hello] && db.snapshots == {}
  {
    db := new Db();
    var err := new ErrSlot();
    db.Put(wo, Foo, Hello, Ok, err);
  }

  /** Applying the test batch to {foo -> hello} leaves {foo -> hello, box -> c}. */
  lemma TestBatchEffect()
    ensures Apply(map[Foo := Hello], TestBatch) == map[Foo := Hello, Box := C]
  {
    var m := map[Foo := Hello];
    assert TestBatch[..2][..1] == TestBatch[..1] && TestBatch[..1][..0] == [];
    assert Apply(m, TestBatch[..1]) == m[Bar := B];
    assert Apply(m, TestBatch[..2]) == m[Bar := B][Box := C];
    assert TestBatch[..3] == TestBatch;
    assert Apply(m, TestBatch) == m[Bar := B][Box := C] - {Bar};
    assert Bar != Foo && Bar != Box;
  }

  /**
   * The database as the writebatch phase leaves it: put(foo, a) is cleared
   * away, then put(bar, b), put(box, c), delete(bar) are written to
   * {foo -> hello}. `written` is the phase's CheckNoError after the write.
   */
  method WriteTestBatch(wo: WriteOptions) returns (db: Db, wb: WriteBatch, written: bool)
    ensures fresh(db) && fresh(wb)
    ensures db.contents == map[Foo := Hello, Box := C] && db.snapshots == {}
    ensures wb.records == TestBatch && written
  {
    db := NewTestDb(wo);
    var err := new ErrSlot();
    wb := new WriteBatch();
    wb.Put(Foo, A);
    wb.Clear();
    wb.Put(Bar, B);
    wb.Put(Box, C);
    wb.Delete(Bar);
    assert wb.records == TestBatch;
    db.Write(wo, wb, Ok, err);
    written := err.message == None;
    TestBatchEffect();
  }

  /**
   * The writebatch phase: after the write, foo -> hello, bar absent,
   * box -> c, and replay through CheckPut/CheckDel ends the counter at 3.
   */
  method WriteBatchPhase() returns (ok: bool)
    ensures ok
  {
    var wo := new WriteOptions(true);
    var ro := new ReadOptions(true, false);
    var db, wb, written := WriteTestBatch(wo);
    var foo := CheckGet(db, ro, Foo, Some(Hello), Ok);
    var bar := CheckGet(db, ro, Bar, None, Ok);
    var box := CheckGet(db, ro, Box, Some(C), Ok);
    var pos := wb.Iterate(Running(0), CheckPut, CheckDel);
    CheckerAcceptsExactlyTestBatch(wb.records);
    ok := written && foo && bar && box && pos == Running(3);
  }

  /** "box" sorts before "foo", and "b" before both. */
  lemma TestKeyOrder()
    ensures LexLess(Box, Foo) && LexLess(B, Box) && LexLess(B, Foo)
    ensures !LexLess(Box, B) && !LexLess(Foo, B) && !LexLess(Foo, Box)
  {
    ProperPrefixLess(B, Box);
    LexLessAsymmetric(B, Box);
    LexLessAsymmetric(Box, Foo);
    LexLessAsymmetric(B, Foo);
  }

  /** The cursor targets of the iter phase, for a view whose keys are box and foo. */
  lemma TestViewOrder(keys: set<Bytes>)
    requires keys == {Box, Foo}
    ensures IsLeast(Box, keys) && IsGreatest(Foo, keys)
    ensures IsLeast(Foo, After(keys, Box)) && IsGreatest(Box, Before(keys, Foo))
    ensures Before(keys, Box) == {}
    ensures IsLeast(Box, AtOrAfter(keys, B))
  {
    TestKeyOrder();
    LexLessIrreflexive(Box);
    LexLessIrreflexive(Foo);
    assert After(keys, Box) == {Foo};
    assert Before(keys, Foo) == {Box};
    assert AtOrAfter(keys, B) == {Box, Foo};
  }

  /**
   * The iter phase over the database the writebatch phase leaves,
   * {box -> c, foo -> hello}: invalid when new;
   * seek_to_first: box; next: foo; prev: box; prev: invalid;
   * seek_to_last: foo; seek("b"): box; no error.
   */
  method IterPhase() returns (ok: bool)
    ensures ok
  {
    var wo := new WriteOptions(true);
    var ro := new ReadOptions(true, false);
    var db, wb, written := WriteTestBatch(wo);
    var err := new ErrSlot();
    var it := db.NewIterator(ro);
    assert it.view == map[Foo := Hello, Box := C];
    assert it.view.Keys == {Box, Foo};
    TestViewOrder(it.view.Keys);
    var v := it.IsValid();
    ok := v == 0;
    it.SeekToFirst();
    v := it.IsValid();
    ok := ok && v != 0;
    ExtremesUnique(it.keys[it.index], Box, it.view.Keys);
    var c1 := CheckIter(it, Box, C);
    it.Next();
    ExtremesUnique(it.keys[it.index], Foo, After(it.view.Keys, Box));
    var c2 := CheckIter(it, Foo, Hello);
    it.Prev();
    ExtremesUnique(it.keys[it.index], Box, Before(it.view.Keys, Foo));
    var c3 := CheckIter(it, Box, C);
    it.Prev();
    v := it.IsValid();
    ok := ok && c1 && c2 && c3 && v == 0;
    it.SeekToLast();
    ExtremesUnique(it.keys[it.index], Foo, it.view.Keys);
    var c4 := CheckIter(it, Foo, Hello);
    it.Seek(B);
    ExtremesUnique(it.keys[it.index], Box, AtOrAfter(it.view.Keys, B));
    var c5 := CheckIter(it, Box, C);
    it.GetError(Ok, err);
    ok := ok && c4 && c5 && err.message == None;
  }

  /**
   * The snapshot phase, on the database the writebatch phase leaves (the
   * keys of the approximate-sizes phase are not added; the phase reads only
   * foo): a snapshot taken before delete(foo) still reads
   * foo -> hello; reads rebound to no snapshot see foo absent.
   */
  method SnapshotPhase() returns (ok: bool)
    ensures ok
  {
    var wo := new WriteOptions(false);
    var ro := new ReadOptions(true, false);
    var db, wb, written := WriteTestBatch(wo);
    var err := new ErrSlot();
    var snap := db.CreateSnapshot();
    db.Delete(wo, Foo, Ok, err);
    ok := err.message == None;
    ro.SetSnapshot(snap);
    var before := CheckGet(db, ro, Foo, Some(Hello), Ok);
    ro.SetSnapshot(null);
    var after := CheckGet(db, ro, Foo, None, Ok);
    db.ReleaseSnapshot(snap);
    ok := ok && before && after;
  }
}

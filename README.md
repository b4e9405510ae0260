# The C binding of the novelsm key-value store, modelled in Dafny

novelsm gives a flat C interface to its storage engine. `include/leveldb/c.h` declares it with the
lowercase `novelsm_` prefix. `include/novelsm/c.h` declares the same functions, with the same
doc-comments on the same lines, under the `NOVELSM_` prefix. This model covers both headers once:
each `novelsm_x` / `NOVELSM_x` pair is one Dafny member. `db/c_test.c` exercises the interface, and
its helpers and expected traces are modelled too.

The binding's implementation (`db/c.cc`) and the engine behind it are not part of this model. The
engine becomes an in-memory map from byte strings to byte strings, and the model covers what the
headers' comments promise and what the test asserts:

- **Comparator** (`comparator.dfy`). The test's `CmpCompare` is memcmp over the shorter length,
  then the shorter string is less. It is proved equal to lexicographic byte order (`LexLess`,
  `bytestrings.dfy`): it is zero exactly on equal strings, antisymmetric in sign and transitive,
  and a proper prefix comes first. `LexLess` is proved a strict total order.
- **Error slot** (`errorchannel.dfy`). `char** errptr` is an `ErrSlot` object. A successful call
  leaves it as it was. A failed call installs the new message in place of the old one. After a
  chain of unchecked calls the slot holds the message of the last failure, and a slot that started
  NULL is still NULL exactly when every call succeeded.
- **Write batch** (`writebatches.dfy`). A `WriteBatch` object holds a record log, with `Put`,
  `Delete` and `Clear`. `Iterate` calls the caller's two callbacks once per record, in append
  order. The C callbacks update `*state`; in the model each callback is a function from the old
  state to the new one. `Write` replays the batch into the table, and each key then ends as the
  last record naming it says.
- **Database and snapshots** (`database.dfy`). `Db` has put, delete, write and get. Get has three
  outcomes: found, not found (NULL, length 0, slot untouched) and engine failure. Whether the
  engine fails is the parameter `fault`. Snapshots are frozen copies of the map, and read options
  bind reads to one snapshot or to none.
- **Iterator** (`cursor.dfy`). The cursor runs over the view's keys in comparator order. Each
  positioning method says which key it lands on, as the least or greatest key of a set, or that
  the cursor falls off the end and becomes not valid.
- **Configuration** (`config.dfy`). The options setters overwrite one field each. Bool bytes mean
  false when 0 and true otherwise. The compression codes are the closed set {0 none, 1 snappy}.
- **The test** (`ctest.dfy`). This file holds `CheckEqual`, the `CheckPut`/`CheckDel` counter and
  the fake filter policy. It also has methods that replay the writebatch, iter and snapshot phases
  of `main` and prove that every check in them passes. The iter and snapshot phases start from the
  database the writebatch phase leaves. The 20000 keys of the approximate-sizes phase are not added;
  the snapshot phase reads only foo.

Neither the headers nor the test say what `novelsm_get` writes to `*vallen` when the key is absent.
The model writes 0, so not found is NULL with length 0. Nothing in the headers or the test
contradicts this.

## Model

| member | source | states |
|---|---|---|
| `ByteStrings.LexLessIrreflexive` | db/c_test.c:117-126 | no byte string is below itself in the comparator's order |
| `ByteStrings.LexLessAsymmetric` | db/c_test.c:117-126 | if a is below b, then b is not below a |
| `ByteStrings.LexLessTransitive` | db/c_test.c:117-126 | the order is transitive |
| `ByteStrings.LexLessTotal` | db/c_test.c:117-126 | any two distinct byte strings are ordered one way or the other |
| `ByteStrings.ProperPrefixLess` | db/c_test.c:121-124 | a proper prefix is below every extension of it |
| `Comparator.Memcmp` | db/c_test.c:120 | memcmp of the first n bytes is 0 exactly when those bytes agree; negative means a sorts first, positive means b does |
| `Comparator.CmpCompare` | db/c_test.c:117-126 | the result is 0 exactly when a == b, negative exactly when a is lexicographically below b, positive exactly when b is below a; only the shorter length must fit in an int |
| `Comparator.CmpCompareAntisymmetric` | db/c_test.c:119-124 | sign(cmp(a, b)) == -sign(cmp(b, a)) |
| `Comparator.CmpCompareTransitive` | db/c_test.c:119-124 | cmp(a, b) < 0 and cmp(b, c) < 0 give cmp(a, c) < 0 |
| `Comparator.CmpComparePrefix` | db/c_test.c:121-124 | a proper prefix compares less than its extension, and the extension greater |
| `ErrorChannel.ErrSlot.constructor` | db/c_test.c:165 | a caller's slot starts as NULL |
| `ErrorChannel.ErrSlot.Save` | include/leveldb/c.h:24-33 | success leaves the slot exactly as on entry; failure replaces whatever it held with the new message |
| `ErrorChannel.LastFailureWins` | include/leveldb/c.h:31-33 | after a chain of calls the slot holds the last failure's message, or its entry value if none failed: overwrite, never merge |
| `ErrorChannel.NoErrorIffAllSucceeded` | include/leveldb/c.h:24-33 | a slot that starts NULL is NULL after a chain of calls exactly when every call succeeded |
| `WriteBatches.WriteBatch.constructor` | include/leveldb/c.h:163 | a new batch holds no records |
| `WriteBatches.WriteBatch.Clear` | include/leveldb/c.h:165 | clear removes every record appended so far |
| `WriteBatches.WriteBatch.Put` | include/leveldb/c.h:166-169 | appends one put record at the end of the log |
| `WriteBatches.WriteBatch.Delete` | include/leveldb/c.h:170-172 | appends one delete record at the end of the log |
| `WriteBatches.WriteBatch.Iterate` | include/leveldb/c.h:173-177 | the visitor's final state is the replay of the log, one callback per record, first record first |
| `WriteBatches.ReplayVisitsInAppendOrder` | include/leveldb/c.h:173-177 | a recording visitor receives exactly the log: one callback per record, of its kind, puts and deletes interleaved as appended |
| `WriteBatches.ApplyIsReplay` | include/leveldb/c.h:92-96 | applying a batch to the table is replaying it through the inserting and erasing visitor |
| `WriteBatches.ApplyLastWriteWins` | include/leveldb/c.h:92-96 | after a write each key holds its last put's value, is absent after its last delete, and is unchanged if the batch does not name it |
| `Cursor.SortedKeys` | include/leveldb/c.h:152-156 | the iterator's key sequence is strictly increasing in comparator order and holds exactly the view's keys |
| `Cursor.Iterator.constructor` | include/leveldb/c.h:107-109 | a freshly created iterator is over the given view and is not valid |
| `Cursor.Iterator.IsValid` | include/leveldb/c.h:151 | iter_valid is the bool byte 1 when positioned, 0 otherwise |
| `Cursor.Iterator.SeekToFirst` | include/leveldb/c.h:152 | valid exactly when the view is non-empty, then at its least key |
| `Cursor.Iterator.SeekToLast` | include/leveldb/c.h:153 | valid exactly when the view is non-empty, then at its greatest key |
| `Cursor.Iterator.Seek` | include/leveldb/c.h:154 | valid exactly when some key is at or after the target, then at the least such key |
| `Cursor.Iterator.Next` | include/leveldb/c.h:155 | valid exactly when some key follows the current one, then at the least such key; otherwise falls off into not valid |
| `Cursor.Iterator.Prev` | include/leveldb/c.h:156 | valid exactly when some key precedes the current one, then at the greatest such key; otherwise falls off into not valid |
| `Cursor.Iterator.Key` | include/leveldb/c.h:157 | the key at the cursor, a key of the view |
| `Cursor.Iterator.Value` | include/leveldb/c.h:158 | the value the view stores under the key at the cursor |
| `Cursor.Iterator.GetError` | include/leveldb/c.h:159 | reports the iteration status through the error slot convention |
| `Config.CompressionCodes` | include/leveldb/c.h:203-207 | exactly the codes 0 (none) and 1 (snappy) name modes, each mode has exactly one code |
| `Config.Options.constructor` | include/leveldb/c.h:181 | a new options handle carries the given defaults |
| `Config.Options.SetCreateIfMissing` | include/leveldb/c.h:189-190 | stores byte != 0 and changes no other setting |
| `Config.Options.SetErrorIfExists` | include/leveldb/c.h:191-192 | stores byte != 0 and changes no other setting |
| `Config.Options.SetParanoidChecks` | include/leveldb/c.h:193-194 | stores byte != 0 and changes no other setting |
| `Config.Options.SetWriteBufferSize` | include/leveldb/c.h:197 | overwrites the write buffer size only |
| `Config.Options.SetMaxOpenFiles` | include/leveldb/c.h:198 | overwrites the open-file limit only |
| `Config.Options.SetBlockSize` | include/leveldb/c.h:200 | overwrites the block size only |
| `Config.Options.SetBlockRestartInterval` | include/leveldb/c.h:201 | overwrites the restart interval only |
| `Config.Options.SetCompression` | include/leveldb/c.h:207 | overwrites the compression code only |
| `Config.WriteOptions.constructor` | include/leveldb/c.h:256 | a new write-options handle carries the given sync default |
| `Config.WriteOptions.SetSync` | include/leveldb/c.h:258-259 | stores byte != 0 |
| `Database.NonzeroBoolBytesAgree` | include/leveldb/c.h:35 | every bool setter of the options, read options and write options handles stores the same value for any two nonzero bytes (1 and 2, say) |
| `Database.Snapshot.constructor` | include/leveldb/c.h:111-112 | a snapshot holds the map it was given |
| `Database.ReadOptions.constructor` | include/leveldb/c.h:243 | new read options are bound to no snapshot |
| `Database.ReadOptions.SetVerifyChecksums` | include/leveldb/c.h:245-247 | stores byte != 0, nothing else changes |
| `Database.ReadOptions.SetFillCache` | include/leveldb/c.h:248-249 | stores byte != 0, nothing else changes |
| `Database.ReadOptions.SetSnapshot` | include/leveldb/c.h:250-252 | binds reads to the snapshot, or to the live map when given NULL |
| `Database.Db.constructor` | db/c_test.c:216-220 | a freshly created database is empty |
| `Database.Db.Put` | include/leveldb/c.h:79-84 | on success key maps to val; on failure nothing changes; the slot follows the error convention |
| `Database.Db.Delete` | include/leveldb/c.h:86-90 | on success key is absent; on failure nothing changes; the slot follows the error convention |
| `Database.Db.Write` | include/leveldb/c.h:92-96 | on success the whole batch is applied in order, on failure none of it |
| `Database.Db.Get` | include/leveldb/c.h:98-105 | found: a copy of the stored value and its length; not found: NULL, length 0, slot untouched; failure: NULL, length 0, failure message |
| `Database.Db.NewIterator` | include/leveldb/c.h:107-109 | a fresh, unpositioned iterator over what the read options see |
| `Database.Db.CreateSnapshot` | include/leveldb/c.h:111-112 | a fresh snapshot frozen at the current map, the map unchanged |
| `Database.Db.ReleaseSnapshot` | include/leveldb/c.h:114-116 | releases a live snapshot, the map unchanged |
| `Database.Db.PropertyValue` | include/leveldb/c.h:118-122 | NULL exactly when the engine does not know the property name, else its value |
| `Database.Db.CompactRange` | include/leveldb/c.h:131-134 | compaction leaves every key and value as it was |
| `CTest.CheckEqual` | db/c_test.c:41-55 | passes exactly when both pointers are NULL, or both are non-NULL with n == strlen(expected) and the same bytes |
| `CTest.CheckEqualExact` | db/c_test.c:44-45 | an n-byte buffer passes against a C string exactly when it equals it |
| `CTest.CheckPut` | db/c_test.c:89-105 | continues exactly for put(bar, b) at 0, put(box, c) at 1, or any put at a negative count; then the count goes up by one |
| `CTest.CheckDel` | db/c_test.c:108-113 | continues exactly for deleted(bar) at count 2, which then becomes 3 |
| `CTest.CheckerCounts` | db/c_test.c:89-113 | replay through the two checkers either aborts or raises the counter by the number of records |
| `CTest.CheckerAcceptsExactlyTestBatch` | db/c_test.c:239-250 | a log replayed from 0 through the checkers ends at 3 exactly when it is put(bar, b), put(box, c), delete(bar) in that order |
| `CTest.FilterCreate` | db/c_test.c:138-147 | the filter is four bytes, whatever the keys |
| `CTest.FilterKeyMatch` | db/c_test.c:148-155 | aborts unless the filter is "fake", else answers fake_filter_result |
| `CTest.FilterMatchesOwnFilters` | db/c_test.c:138-155 | key_may_match on a filter the policy created answers fake_filter_result and does not abort |
| `CTest.CheckGet` | db/c_test.c:64-76 | for a C string key: passes exactly when the engine reports no error and what the read options see under key is the expected value (NULL: absent); an engine failure fails the check |
| `CTest.CheckIter` | db/c_test.c:78-86 | passes exactly when the cursor's entry is (key, val) |
| `CTest.PutThenGet` | db/c_test.c:222-225 | for every database state, key and value, a get after a successful put returns the put value |
| `CTest.NewTestDb` | db/c_test.c:216-225 | the open and put phases leave exactly foo -> hello |
| `CTest.TestBatchEffect` | db/c_test.c:237-247 | writing the batch to {foo -> hello} gives {foo -> hello, box -> c}; the cleared put(foo, a) has no effect |
| `CTest.WriteTestBatch` | db/c_test.c:235-244 | the write succeeds and leaves exactly foo -> hello, box -> c; the batch holds put(bar, b), put(box, c), delete(bar), with the cleared put(foo, a) gone |
| `CTest.WriteBatchPhase` | db/c_test.c:235-252 | every check of the writebatch phase passes: foo -> hello, bar absent, box -> c, counter at 3 |
| `CTest.IterPhase` | db/c_test.c:254-274 | on the database the writebatch phase leaves, every check of the iter phase passes: new invalid, first box, next foo, prev box, prev invalid, last foo, seek "b" box, no error |
| `CTest.SnapshotPhase` | db/c_test.c:309-320 | on the database the writebatch phase leaves, a snapshot taken before delete(foo) reads foo -> hello; reads bound to no snapshot see foo absent |

## Left out

- Open, close, destroy_db and repair_db (include/leveldb/c.h:72-77, 138-146) depend on files on disk
  and on log recovery. The open_error, destroy and repair phases of the test (db/c_test.c:201-214,
  322-336) are therefore not modelled. `Db.constructor` stands for a database just created with
  create_if_missing set.
- approximate_sizes (include/leveldb/c.h:124-129) and the test's 20000-key phase
  (db/c_test.c:276-298) depend on the table layout on disk.
- Engine-side property recognition: which names the engine knows, such as `novelsm.stats`
  (db/c_test.c:300-307), is a parameter of `Db.PropertyValue`.
- The comparator and filter-policy trampolines (comparator_create and filterpolicy_create with
  their destroy calls, include/leveldb/c.h:211-236) are not modelled as handles. They only forward
  calls to the caller's functions, and the engine's use of those functions is not part of this
  model. Instead the iterator's order is fixed to `LexLess`, which `Comparator.CmpCompare` is proved
  to compute. `CTest.FilterCreate` and `CTest.FilterKeyMatch` model the test's own callbacks
  directly. The names the callbacks report ("foo", "TestFilter") are not used by anything modelled.
- The built-in bloom filter (include/leveldb/c.h:238-239): its implementation lies outside the C
  binding, and its answers are probabilistic.
- The filter phase (db/c_test.c:338-377) needs a database destroyed and reopened under a new
  filter policy, which the open and destroy calls left out above rule out.
- The filter phase's adversarial reads (db/c_test.c:365-374) are never run: `phase == 0` is always
  false because `phase` points at a string. The model states nothing about them.
- Cache, env, logger and the file handles (include/leveldb/c.h:53-68, 261-269), and the options
  setters that install them, have no stated behaviour beyond storing a pointer.
- Allocation and freeing: malloc-ed results, `novelsm_free`, the test's `Free` that nulls the
  caller's pointer, and the handle destroy calls. Results are values in the model.
- ErrSlot.Save: the entry precondition that a non-NULL slot holds a message this library allocated
  (include/leveldb/c.h:26-30) is not stated. Where a message was allocated is not visible in a model
  that has no allocator.
- CmpCompare: the test narrows `min(alen, blen)` from size_t to int (db/c_test.c:119). The model
  requires that shorter length to fit in an int instead of modelling the overflow.
- CTest.CheckGet: the key is a C string, measured by `strlen` (db/c_test.c:72). The model requires a key
  without NUL bytes, as every key the test passes is, instead of cutting a key short at its first NUL.
- Comparator.Memcmp: C fixes only the sign of memcmp's result. The model returns the difference of
  the first differing bytes, and no contract depends on more than the sign.
- Db.Put, Db.Delete, Db.Write: a failed call leaves the map unchanged. The headers do not say
  this; it treats each engine update as atomic.
- Write options: `sync` is stored, but durability is not modelled.
- Version accessors (include/leveldb/c.h:280-284): their values are in the implementation, which
  is not part of this model.
- I/O and process control in the test (`fprintf`, `abort`, `getenv`, `snprintf`, `geteuid`). An
  abort becomes a false result, or `Run.Aborted`, which no later callback leaves.
- Concurrency: the interface makes no concurrency promise, and the model is sequential.
- The two headers share one include guard, and the test includes `novelsm/c.h` but calls the
  lowercase names. This is build plumbing, not behaviour.
